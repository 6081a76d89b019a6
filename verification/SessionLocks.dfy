/** The locking discipline behind Session.do and Session.Close: what the
    read lock, the write lock, the channel and the two once-guards promise in
    every state of every run. */
module SessionLocks {
  import opened SessionMachine

  // How the control state of one thread is tied to the shared state.
  ghost predicate ThreadLocks(s: State, t: nat)
    requires t < |s.threads|
  {
    var th := s.threads[t];
    && (t in s.ctl.readers <==> th.pc.AtCheck? || th.pc.AtSend? || th.pc.AtDone? || th.pc.AtRUnlock?)
    && (!th.pc.Out? ==> th.task.Calls())
    && (th.pc.AtSend? || th.pc.AtDone? ==> !s.ctl.stopped)
    && (th.pc.AtDone? <==> s.ctl.com == Running(t))
    && (s.ctl.once == Active(t) <==> th.task.Stopping())
    && (s.ctl.writer == Waiting(t) <==> th.task.StopWait?)
    && (s.ctl.writer == Holding(t) <==> th.task.StopSet? || th.task.StopChan? || th.task.StopUnlock?)
    && (th.task.Stopping() ==>
          && (s.ctl.stopped <==> !(th.task.StopLock? || th.task.StopWait? || th.task.StopSet?))
          && (s.ctl.chClosed <==> th.task.StopUnlock? || th.task.StopJoin? || th.task.StopLeave?)
          && (th.task.StopLeave? ==> s.ctl.closed))
  }

  ghost predicate SharedLocks(s: State) {
    && (forall t | t in s.ctl.readers :: t < |s.threads|)
    && (!s.ctl.writer.Free? ==> s.ctl.writer.who < |s.threads|)
    && (s.ctl.once.Active? ==> s.ctl.once.who < |s.threads|)
    && (s.ctl.com.Running? ==> s.ctl.com.who < |s.threads|)
    && (s.ctl.writer.Holding? ==> s.ctl.readers == {})
    && (s.ctl.once.Fresh? ==> !s.ctl.stopped && !s.ctl.chClosed)
    && (s.ctl.once.Spent? ==> s.ctl.stopped && s.ctl.chClosed && s.ctl.closed)
    && (s.ctl.chClosed ==> s.ctl.stopped)
    && (!s.ctl.com.Receiving? && !s.ctl.com.Running? ==> s.ctl.chClosed)
    && (s.ctl.closed <==> s.ctl.com.Exited?)
    && !s.fault.SendOnClosed? && !s.fault.CloseOfClosed?
  }

  ghost predicate LockInv(s: State) {
    && SharedLocks(s)
    && forall t | 0 <= t < |s.threads| :: ThreadLocks(s, t)
  }

  lemma InitLocks(s: State)
    requires Init(s)
    ensures LockInv(s)
  {
  }

  // Steps of one thread outside do that leave the session's control state alone.
  ghost predicate Local(s: State, s': State, t: nat) {
    && t < |s.threads| && |s'.threads| == |s.threads|
    && (forall u | 0 <= u < |s.threads| && u != t :: s'.threads[u] == s.threads[u])
    && s.threads[t].pc.Out? && (s'.threads[t].pc.Out? || (s'.threads[t].pc.AtRLock? && s'.threads[t].task.Calls()))
    && !s.threads[t].task.Stopping() && !s'.threads[t].task.Stopping()
    && s'.ctl == s.ctl
    && (s'.fault == s.fault || s'.fault == NilRelease)
  }

  lemma StartIsLocal(s: State, a: Action)
    requires Enabled(s, a) && a.Start?
    ensures Local(s, Apply(s, a), a.t)
  {
  }

  lemma DialIsLocal(s: State, a: Action)
    requires Enabled(s, a) && a.DialStep?
    ensures Local(s, Apply(s, a), a.t)
  {
  }

  lemma ConnIsLocal(s: State, a: Action)
    requires Enabled(s, a) && a.ConnStep?
    ensures Local(s, Apply(s, a), a.t)
  {
  }

  lemma LocalKeepsLocks(s: State, s': State, t: nat)
    requires LockInv(s) && Local(s, s', t)
    ensures LockInv(s')
  {
    assert ThreadLocks(s, t);
    forall u | 0 <= u < |s'.threads| ensures ThreadLocks(s', u) {
      assert ThreadLocks(s, u);
    }
  }

  lemma DoKeepsLocks(s: State, a: Action)
    requires LockInv(s) && Enabled(s, a) && (a.RLock? || a.Check? || a.Send? || a.RUnlock?)
    ensures LockInv(Apply(s, a))
  {
    var s' := Apply(s, a);
    assert ThreadLocks(s, a.t);
    forall t | 0 <= t < |s'.threads| ensures ThreadLocks(s', t) {
      assert ThreadLocks(s, t);
    }
  }

  lemma FinishKeepsLocks(s: State, a: Action)
    requires LockInv(s) && Enabled(s, a) && a.Finish?
    ensures LockInv(Apply(s, a))
  {
    var s' := Apply(s, a);
    assert ThreadLocks(s, s.ctl.com.who);
    forall t | 0 <= t < |s'.threads| ensures ThreadLocks(s', t) {
      assert ThreadLocks(s, t);
    }
  }

  // The thread inside Session.Close, and what all share.
  lemma StopKeepsOwn(s: State, a: Action)
    requires LockInv(s) && Enabled(s, a) && a.StopStep?
    ensures |Apply(s, a).threads| == |s.threads| && ThreadLocks(Apply(s, a), a.t)
  {
    assert ThreadLocks(s, a.t);
  }

  lemma StopKeepsShared(s: State, a: Action)
    requires LockInv(s) && Enabled(s, a) && a.StopStep?
    ensures SharedLocks(Apply(s, a))
  {
    assert ThreadLocks(s, a.t);
  }

  lemma StopKeepsLocks(s: State, a: Action)
    requires LockInv(s) && Enabled(s, a) && a.StopStep?
    ensures LockInv(Apply(s, a))
  {
    var s' := Apply(s, a);
    StopKeepsOwn(s, a);
    StopKeepsShared(s, a);
    assert ThreadLocks(s, a.t);
    forall t | 0 <= t < |s'.threads| ensures ThreadLocks(s', t) {
      assert ThreadLocks(s, t);
    }
  }

  lemma TeardownKeepsLocks(s: State, a: Action)
    requires LockInv(s) && Enabled(s, a) && a.TeardownStep?
    ensures LockInv(Apply(s, a))
  {
    var s' := Apply(s, a);
    forall t | 0 <= t < |s'.threads| ensures ThreadLocks(s', t) {
      assert ThreadLocks(s, t);
    }
  }

  lemma LocksKept(s: State, a: Action)
    requires LockInv(s) && Enabled(s, a)
    ensures LockInv(Apply(s, a))
  {
    match a
    case Start(_, _) => StartIsLocal(s, a); LocalKeepsLocks(s, Apply(s, a), a.t);
    case DialStep(_) => DialIsLocal(s, a); LocalKeepsLocks(s, Apply(s, a), a.t);
    case ConnStep(_) => ConnIsLocal(s, a); LocalKeepsLocks(s, Apply(s, a), a.t);
    case RLock(_) => DoKeepsLocks(s, a);
    case Check(_) => DoKeepsLocks(s, a);
    case Send(_) => DoKeepsLocks(s, a);
    case RUnlock(_) => DoKeepsLocks(s, a);
    case Finish(_) => FinishKeepsLocks(s, a);
    case StopStep(_) => StopKeepsLocks(s, a);
    case TeardownStep => TeardownKeepsLocks(s, a);
  }
}
