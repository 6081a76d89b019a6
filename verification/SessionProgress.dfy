/** Deadlock freedom and termination of the session protocol: in every reachable
    state some unfinished call can take a step, and every step, whoever takes
    it, lowers one natural number. */
module SessionProgress {
  import opened SessionMachine
  import opened SessionLocks
  import opened SessionConns

  // ------------------------------------------------------------ deadlock freedom

  predicate Busy(th: Thread) {
    !th.pc.Out? || !th.task.Idle?
  }

  // Some step that finishes calls already made; starting another is not one.
  ghost predicate CanProceed(s: State) {
    exists a: Action :: !a.Start? && Enabled(s, a)
  }

  lemma Step(s: State, a: Action)
    requires !a.Start? && Enabled(s, a)
    ensures CanProceed(s)
  {
  }

  ghost predicate Sound(s: State) {
    LockInv(s) && ConnInv(s) && s.fault.NoFault?
  }

  // Whoever holds the read lock can go on, or waits for the COM thread, which can.
  lemma ReaderProceeds(s: State, t: nat)
    requires Sound(s) && t in s.ctl.readers
    ensures CanProceed(s)
  {
    assert ThreadLocks(s, t);
    match s.threads[t].pc
    case AtCheck => Step(s, Check(t));
    case AtSend => if s.ctl.com.Running? { Step(s, Finish(Fine)); } else { Step(s, Send(t)); }
    case AtDone => Step(s, Finish(Fine));
    case AtRUnlock => Step(s, RUnlock(t));
  }

  // The thread inside Session.Close can go on, or waits for readers or the COM thread.
  lemma StopperProceeds(s: State, t: nat)
    requires Sound(s) && t < |s.threads| && s.threads[t].task.Stopping()
    ensures CanProceed(s)
  {
    assert ThreadLocks(s, t);
    match s.threads[t].task
    case StopLock =>
      forall u | 0 <= u < |s.threads| ensures s.ctl.writer != Waiting(u) && s.ctl.writer != Holding(u) {
        assert ThreadLocks(s, u);
      }
      Step(s, StopStep(t));
    case StopWait =>
      if s.ctl.readers == {} {
        Step(s, StopStep(t));
      } else {
        var r :| r in s.ctl.readers;
        ReaderProceeds(s, r);
      }
    case StopJoin =>
      if s.ctl.closed { Step(s, StopStep(t)); }
      else if s.ctl.com.Running? { Step(s, Finish(Fine)); }
      else { Step(s, TeardownStep); }
    case _ => Step(s, StopStep(t));
  }

  // A thread anywhere inside do can go on, or waits for one that can.
  lemma CallerProceeds(s: State, t: nat)
    requires Sound(s) && t < |s.threads| && !s.threads[t].pc.Out?
    ensures CanProceed(s)
  {
    assert ThreadLocks(s, t);
    if !s.threads[t].pc.AtRLock? {
      ReaderProceeds(s, t);
    } else if s.ctl.writer.Free? {
      Step(s, RLock(t));
    } else {
      assert ThreadLocks(s, s.ctl.writer.who);
      StopperProceeds(s, s.ctl.writer.who);
    }
  }

  // The thread inside a connection's writeCloseOnce never waits.
  lemma ShutterProceeds(s: State, c: nat)
    requires Sound(s) && c < |s.world.conns| && s.world.conns[c].writeOnce.Active?
    ensures CanProceed(s)
  {
    assert ConnOk(s, c);
    var u := s.world.conns[c].writeOnce.who;
    assert ThreadConns(s, u) && ThreadLocks(s, u);
    Step(s, ConnStep(u));
  }

  // The thread inside a connection's closeOnce can go on, or waits for one that can.
  lemma CloserProceeds(s: State, c: nat)
    requires Sound(s) && c < |s.world.conns| && s.world.conns[c].closeOnce.Active?
    ensures CanProceed(s)
  {
    assert ConnOk(s, c);
    var u := s.world.conns[c].closeOnce.who;
    assert ThreadConns(s, u);
    if !s.threads[u].pc.Out? { CallerProceeds(s, u); }
    else if s.threads[u].task.ShutEnter? && s.world.conns[c].writeOnce.Active? { ShutterProceeds(s, c); }
    else { Step(s, ConnStep(u)); }
  }

  /** No deadlock: while any call is unfinished, some step other than starting a
      new call is enabled. */
  lemma NoDeadlock(s: State, t: nat)
    requires Sound(s) && t < |s.threads| && Busy(s.threads[t])
    ensures CanProceed(s)
  {
    assert ThreadLocks(s, t) && ThreadConns(s, t);
    var task := s.threads[t].task;
    if !s.threads[t].pc.Out? { CallerProceeds(s, t); }
    else if task.Stopping() { StopperProceeds(s, t); }
    else if task.StopEnter? {
      if s.ctl.once.Active? {
        assert ThreadLocks(s, s.ctl.once.who);
        StopperProceeds(s, s.ctl.once.who);
      } else { Step(s, StopStep(t)); }
    }
    else if task.ShutEnter? && s.world.conns[task.conn].writeOnce.Active? { ShutterProceeds(s, task.conn); }
    else if task.CloseEnter? && s.world.conns[task.conn].closeOnce.Active? { CloserProceeds(s, task.conn); }
    else if ConnReady(s, task) { Step(s, ConnStep(t)); }
    else { Step(s, DialStep(t)); }
  }

  // ------------------------------------------------------------ termination

  // Steps a thread still has before it leaves do, and before its task is over.
  function PCRank(pc: PC): nat {
    match pc
    case Out => 0 case AtRLock => 5 case AtCheck => 4 case AtSend => 3 case AtDone => 2 case AtRUnlock => 1
  }

  function TaskRank(task: Task): nat {
    match task
    case Idle => 0
    case Naming => 1
    case Discarding(_) => 1
    case Handling(_, _, _) => 7
    case Creating(_, _, _, _) => 13
    case Mounting(_, _, _) => 19
    case ShutEnter(_, closing) => if closing then 12 else 3
    case ShutDo(_, closing) => if closing then 11 else 2
    case ShutLeave(_, closing) => if closing then 10 else 1
    case CloseEnter(_) => 13
    case CloseIn(_) => 9
    case CloseOut(_) => 8
    case CloseEval(_) => 7
    case Releasing(_) => 1
    case StopEnter => 8
    case StopLock => 7 case StopWait => 6 case StopSet => 5 case StopChan => 4
    case StopUnlock => 3 case StopJoin => 2 case StopLeave => 1
  }

  function ThreadRank(th: Thread): nat {
    25 * th.budget + TaskRank(th.task) + PCRank(th.pc)
  }

  function Total(threads: seq<Thread>): nat {
    if threads == [] then 0 else ThreadRank(threads[0]) + Total(threads[1..])
  }

  function ComRank(com: ComThread): nat {
    match com
    case Receiving => 5 case Running(_) => 5 case Terminating => 4
    case DroppingSession => 3 case DroppingManager => 2 case Announcing => 1 case Exited => 0
  }

  function Rank(s: State): nat {
    Total(s.threads) + ComRank(s.ctl.com) + if s.fault.NoFault? then 1 else 0
  }

  lemma {:induction false} TotalUpdate(threads: seq<Thread>, t: nat, th: Thread)
    requires t < |threads|
    ensures Total(threads[t := th]) == Total(threads) - ThreadRank(threads[t]) + ThreadRank(th)
  {
    if t == 0 {
      assert threads[t := th][1..] == threads[1..];
    } else {
      assert threads[t := th][1..] == threads[1..][t - 1 := th];
      TotalUpdate(threads[1..], t - 1, th);
    }
  }

  // The one thread a step moves.
  function Mover(s: State, a: Action): nat
    requires !a.TeardownStep? && (a.Finish? ==> s.ctl.com.Running?)
  {
    if a.Finish? then s.ctl.com.who else a.t
  }

  ghost predicate Advances(s: State, s': State, t: nat) {
    && t < |s.threads| && |s'.threads| == |s.threads|
    && s'.threads == s.threads[t := s'.threads[t]]
    && ComRank(s'.ctl.com) == ComRank(s.ctl.com)
    && (s'.fault == s.fault ==> ThreadRank(s'.threads[t]) < ThreadRank(s.threads[t]))
    && (s'.fault != s.fault ==> s.fault.NoFault? && s'.threads == s.threads)
  }

  lemma StartAdvances(s: State, a: Action)
    requires Enabled(s, a) && a.Start?
    ensures Advances(s, Apply(s, a), a.t)
  {
  }

  lemma DoAdvances(s: State, a: Action)
    requires LockInv(s) && Enabled(s, a) && (a.RLock? || a.Check? || a.Send? || a.RUnlock?)
    ensures Advances(s, Apply(s, a), a.t)
  {
  }

  lemma FinishAdvances(s: State, a: Action)
    requires LockInv(s) && Enabled(s, a) && a.Finish?
    ensures Advances(s, Apply(s, a), s.ctl.com.who)
  {
    assert ThreadLocks(s, s.ctl.com.who);
  }

  lemma DialAdvances(s: State, a: Action)
    requires Enabled(s, a) && a.DialStep?
    ensures Advances(s, Apply(s, a), a.t)
  {
  }

  lemma ConnAdvances(s: State, a: Action)
    requires Enabled(s, a) && a.ConnStep?
    ensures Advances(s, Apply(s, a), a.t)
  {
  }

  lemma StopAdvances(s: State, a: Action)
    requires Enabled(s, a) && a.StopStep?
    ensures Advances(s, Apply(s, a), a.t)
  {
  }

  /** Every step of every thread, under every outcome, lowers the rank. */
  lemma RankFalls(s: State, a: Action)
    requires LockInv(s) && Enabled(s, a)
    ensures Rank(Apply(s, a)) < Rank(s)
  {
    if !a.TeardownStep? {
      match a {
        case Start(_, _) => StartAdvances(s, a);
        case Finish(_) => FinishAdvances(s, a);
        case DialStep(_) => DialAdvances(s, a);
        case ConnStep(_) => ConnAdvances(s, a);
        case StopStep(_) => StopAdvances(s, a);
        case _ => DoAdvances(s, a);
      }
      var t := Mover(s, a);
      TotalUpdate(s.threads, t, Apply(s, a).threads[t]);
    }
  }

  /** When nothing has panicked and no step is enabled but the making of new calls,
      every thread has finished all the calls it made, and made all its calls if
      not even that is enabled; and if anyone called Session.Close, the COM thread
      has exited. */
  lemma StuckMeansDone(s: State)
    requires Sound(s) && forall a: Action | Enabled(s, a) :: a.Start?
    ensures forall t | 0 <= t < |s.threads| :: !Busy(s.threads[t])
    ensures (forall a: Action :: !Enabled(s, a)) ==> forall t | 0 <= t < |s.threads| :: s.threads[t].budget == 0
    ensures s.ctl.once.Fresh? || (s.ctl.once.Spent? && s.ctl.stopped && s.ctl.com.Exited?)
  {
    forall t | 0 <= t < |s.threads| ensures !Busy(s.threads[t]) {
      if Busy(s.threads[t]) { NoDeadlock(s, t); }
    }
    forall t | 0 <= t < |s.threads| && !Enabled(s, Start(t, NameCall)) ensures s.threads[t].budget == 0 {
    }
    forall u | 0 <= u < |s.threads| ensures s.ctl.once != Active(u) { assert ThreadLocks(s, u); }
  }
}
