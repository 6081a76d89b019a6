/** The history of Session.do: when each call was made, when its closure began
    and ended on the COM thread, or was skipped, and when the call returned. */
module SessionHistory {
  import opened Prelude
  import opened SessionMachine
  import opened SessionLocks

  // Every event of the history is the one its call's record points at, so no
  // event happens twice.
  predicate EventOk(log: Log, i: nat)
    requires i < |log.history|
  {
    match log.history[i]
    case Stop => log.stopAt == Some(i)
    case Invoke(k) => k < |log.calls| && log.calls[k].invoked == i
    case Begin(k) => k < |log.calls| && log.calls[k].begun == Some(i)
    case End(k) => k < |log.calls| && log.calls[k].ended == Some(i)
    case Skip(k) => k < |log.calls| && log.calls[k].skipped == Some(i)
    case Return(k) => k < |log.calls| && log.calls[k].returned == Some(i)
  }

  predicate Happened(log: Log, at: Option<nat>, e: Event) {
    at.Some? ==> at.value < |log.history| && log.history[at.value] == e
  }

  // One call: invoked, then either run from begin to end while the session is
  // live or skipped after the stop, then returned.
  predicate CallOk(log: Log, k: nat)
    requires k < |log.calls|
  {
    var r := log.calls[k];
    && Happened(log, Some(r.invoked), Invoke(k)) && Happened(log, r.begun, Begin(k)) && Happened(log, r.ended, End(k))
    && Happened(log, r.skipped, Skip(k)) && Happened(log, r.returned, Return(k))
    && (r.begun.Some? ==> r.invoked < r.begun.value)
    && (r.ended.Some? ==> r.begun.Some? && r.begun.value < r.ended.value)
    && (r.skipped.Some? ==> r.begun.None? && r.invoked < r.skipped.value)
    && (r.skipped.Some? ==> log.stopAt.Some? && log.stopAt.value < r.skipped.value)
    && (r.returned.Some? ==>
          || (r.ended.Some? && r.ended.value < r.returned.value)
          || (r.skipped.Some? && r.skipped.value < r.returned.value))
    && (log.stopAt.Some? && r.begun.Some? ==> r.ended.Some? && r.ended.value < log.stopAt.value)
  }

  // Two closures never overlap on the COM thread.
  predicate Apart(log: Log, j: nat, k: nat)
    requires j < |log.calls| && k < |log.calls|
  {
    var q, r := log.calls[j], log.calls[k];
    j != k && q.begun.Some? && r.begun.Some? ==>
      || (q.ended.Some? && q.ended.value < r.begun.value)
      || (r.ended.Some? && r.ended.value < q.begun.value)
  }

  ghost predicate Linear(log: Log) {
    && (log.stopAt.Some? ==> Happened(log, log.stopAt, Stop))
    && (forall i | 0 <= i < |log.history| :: EventOk(log, i))
    && (forall k | 0 <= k < |log.calls| :: CallOk(log, k))
    && (forall j, k | 0 <= j < |log.calls| && 0 <= k < |log.calls| :: Apart(log, j, k))
  }

  // The record of the call a thread is in agrees with where the thread stands.
  ghost predicate ThreadLog(s: State, t: nat)
    requires t < |s.threads|
  {
    var th := s.threads[t];
    !th.pc.Out? ==>
      && th.call < |s.log.calls|
      && var r := s.log.calls[th.call];
         && r.who == t && r.returned.None?
         && (th.pc.AtRLock? || th.pc.AtCheck? || th.pc.AtSend? ==> r.begun.None? && r.skipped.None? && r.ended.None?)
         && (th.pc.AtDone? ==> r.begun.Some? && r.ended.None? && r.skipped.None?)
         && (th.pc.AtRUnlock? ==> r.ended.Some? || r.skipped.Some?)
  }

  // A closure that has begun and not ended is the one the COM thread is running;
  // a call that has not returned is the one its thread is in.
  ghost predicate OpenOk(s: State, k: nat)
    requires k < |s.log.calls|
  {
    var r := s.log.calls[k];
    && r.who < |s.threads|
    && (r.begun.Some? && r.ended.None? ==> s.ctl.com == Running(r.who) && s.threads[r.who].call == k)
    && (r.returned.None? ==> s.threads[r.who].call == k && !s.threads[r.who].pc.Out?)
  }

  ghost predicate LogInv(s: State) {
    && Linear(s.log)
    && (s.log.stopAt.Some? <==> s.ctl.stopped)
    && (forall t | 0 <= t < |s.threads| :: ThreadLog(s, t))
    && (forall k | 0 <= k < |s.log.calls| :: OpenOk(s, k))
  }

  // ------------------------------------------------------------ the log alone

  // Event e may come next for call k.
  ghost predicate Fits(log: Log, k: nat, e: Event)
    requires k < |log.calls|
  {
    var r := log.calls[k];
    r.returned.None? &&
    match e
    case Begin(j) =>
      && j == k && r.begun.None? && r.skipped.None? && log.stopAt.None?
      && forall i | 0 <= i < |log.calls| :: log.calls[i].begun.Some? ==> log.calls[i].ended.Some?
    case End(j) => j == k && r.begun.Some? && r.ended.None? && log.stopAt.None?
    case Skip(j) => j == k && r.begun.None? && r.skipped.None? && log.stopAt.Some?
    case Return(j) => j == k && (r.ended.Some? || r.skipped.Some?)
    case _ => false
  }

  lemma NoteKeepsEvents(log: Log, k: nat, e: Event)
    requires Linear(log) && k < |log.calls| && Fits(log, k, e)
    ensures var log' := Note(log, k, e); forall i | 0 <= i < |log'.history| :: EventOk(log', i)
  {
    var log' := Note(log, k, e);
    forall i | 0 <= i < |log'.history| ensures EventOk(log', i) {
      if i < |log.history| { assert EventOk(log, i) && CallOk(log, k); }
    }
  }

  lemma NoteKeepsCalls(log: Log, k: nat, e: Event)
    requires Linear(log) && k < |log.calls| && Fits(log, k, e)
    ensures var log' := Note(log, k, e); forall j | 0 <= j < |log'.calls| :: CallOk(log', j)
  {
    var log' := Note(log, k, e);
    forall j | 0 <= j < |log'.calls| ensures CallOk(log', j) { assert CallOk(log, j); }
  }

  lemma NoteKeepsApart(log: Log, k: nat, e: Event)
    requires Linear(log) && k < |log.calls| && Fits(log, k, e)
    ensures var log' := Note(log, k, e);
      forall i, j | 0 <= i < |log'.calls| && 0 <= j < |log'.calls| :: Apart(log', i, j)
  {
    var log' := Note(log, k, e);
    forall i, j | 0 <= i < |log'.calls| && 0 <= j < |log'.calls| ensures Apart(log', i, j) {
      assert Apart(log, i, j) && CallOk(log, i) && CallOk(log, j);
    }
  }

  lemma NoteKeepsLinear(log: Log, k: nat, e: Event)
    requires Linear(log) && k < |log.calls| && Fits(log, k, e)
    ensures Linear(Note(log, k, e))
  {
    NoteKeepsEvents(log, k, e);
    NoteKeepsCalls(log, k, e);
    NoteKeepsApart(log, k, e);
  }

  lemma InvokeKeepsLinear(log: Log, t: nat, closure: Task)
    requires Linear(log)
    ensures Linear(log.(calls := log.calls + [CallRec(t, closure, |log.history|, None, None, None, None)],
                        history := log.history + [Invoke(|log.calls|)]))
  {
    var log' := log.(calls := log.calls + [CallRec(t, closure, |log.history|, None, None, None, None)],
                     history := log.history + [Invoke(|log.calls|)]);
    forall i | 0 <= i < |log'.history| ensures EventOk(log', i) {
      if i < |log.history| { assert EventOk(log, i); }
    }
    forall j | 0 <= j < |log'.calls| ensures CallOk(log', j) {
      if j < |log.calls| { assert CallOk(log, j); }
    }
    forall i, j | 0 <= i < |log'.calls| && 0 <= j < |log'.calls| ensures Apart(log', i, j) {
      if i < |log.calls| && j < |log.calls| { assert Apart(log, i, j); }
    }
  }

  lemma StopKeepsLinear(log: Log)
    requires Linear(log) && log.stopAt.None?
    requires forall i | 0 <= i < |log.calls| :: log.calls[i].begun.Some? ==> log.calls[i].ended.Some?
    ensures Linear(log.(stopAt := Some(|log.history|), history := log.history + [Stop]))
  {
    var log' := log.(stopAt := Some(|log.history|), history := log.history + [Stop]);
    forall i | 0 <= i < |log'.history| ensures EventOk(log', i) {
      if i < |log.history| { assert EventOk(log, i); }
    }
    forall j | 0 <= j < |log'.calls| ensures CallOk(log', j) { assert CallOk(log, j); }
    forall i, j | 0 <= i < |log'.calls| && 0 <= j < |log'.calls| ensures Apart(log', i, j) {
      assert Apart(log, i, j);
    }
  }

  // ------------------------------------------------------------ the steps

  // Thread t notes event e of the call it is in.
  ghost predicate Notes(s: State, s': State, t: nat, e: Event) {
    && t < |s.threads| && |s'.threads| == |s.threads|
    && (forall u | 0 <= u < |s.threads| && u != t :: s'.threads[u] == s.threads[u])
    && s'.threads[t].call == s.threads[t].call
    && s'.log == Note(s.log, s.threads[t].call, e)
    && s'.ctl.stopped == s.ctl.stopped
  }

  lemma RunningIsOpen(s: State)
    requires LockInv(s) && LogInv(s) && !s.ctl.com.Running?
    ensures forall i | 0 <= i < |s.log.calls| :: s.log.calls[i].begun.Some? ==> s.log.calls[i].ended.Some?
  {
    forall i | 0 <= i < |s.log.calls| && s.log.calls[i].begun.Some? ensures s.log.calls[i].ended.Some? {
      assert OpenOk(s, i);
    }
  }

  // The threads and records a note does not concern.
  lemma NotesKeepOthers(s: State, s': State, t: nat, e: Event)
    requires LogInv(s) && Notes(s, s', t, e) && s.threads[t].call < |s.log.calls|
    requires s.log.calls[s.threads[t].call].who == t
    requires s'.ctl.com == s.ctl.com || (s'.ctl.com == Running(t) && !s.ctl.com.Running?)
          || (s.ctl.com == Running(t) && !s'.ctl.com.Running?)
    ensures forall u | 0 <= u < |s'.threads| && u != t :: ThreadLog(s', u)
    ensures forall k | 0 <= k < |s'.log.calls| && k != s.threads[t].call :: OpenOk(s', k)
  {
    forall u | 0 <= u < |s'.threads| && u != t ensures ThreadLog(s', u) { assert ThreadLog(s, u); }
    forall k | 0 <= k < |s'.log.calls| && k != s.threads[t].call ensures OpenOk(s', k) { assert OpenOk(s, k); }
  }

  lemma SendKeepsLog(s: State, a: Action)
    requires LockInv(s) && LogInv(s) && Enabled(s, a) && a.Send?
    ensures LogInv(Apply(s, a))
  {
    var t := a.t;
    assert ThreadLocks(s, t) && ThreadLog(s, t);
    RunningIsOpen(s);
    NoteKeepsLinear(s.log, s.threads[t].call, Begin(s.threads[t].call));
    NotesKeepOthers(s, Apply(s, a), t, Begin(s.threads[t].call));
  }

  lemma CheckKeepsLog(s: State, a: Action)
    requires LockInv(s) && LogInv(s) && Enabled(s, a) && a.Check?
    ensures LogInv(Apply(s, a))
  {
    var t := a.t;
    assert ThreadLocks(s, t) && ThreadLog(s, t);
    if s.ctl.stopped {
      NoteKeepsLinear(s.log, s.threads[t].call, Skip(s.threads[t].call));
      NotesKeepOthers(s, Apply(s, a), t, Skip(s.threads[t].call));
    } else {
      MoveKeepsLog(s, Apply(s, a), t);
    }
  }

  lemma FinishKeepsLog(s: State, a: Action)
    requires LockInv(s) && LogInv(s) && Enabled(s, a) && a.Finish?
    ensures LogInv(Apply(s, a))
  {
    var t, s' := s.ctl.com.who, Apply(s, a);
    assert ThreadLocks(s, t) && ThreadLog(s, t);
    if s'.fault == s.fault {
      NoteKeepsLinear(s.log, s.threads[t].call, End(s.threads[t].call));
      NotesKeepOthers(s, s', t, End(s.threads[t].call));
    } else {
      MoveKeepsLog(s, s', t);
    }
  }

  lemma RUnlockKeepsLog(s: State, a: Action)
    requires LockInv(s) && LogInv(s) && Enabled(s, a) && a.RUnlock?
    ensures LogInv(Apply(s, a))
  {
    var t := a.t;
    assert ThreadLocks(s, t) && ThreadLog(s, t);
    NoteKeepsLinear(s.log, s.threads[t].call, Return(s.threads[t].call));
    NotesKeepOthers(s, Apply(s, a), t, Return(s.threads[t].call));
    assert OpenOk(s, s.threads[t].call);
  }

  // A step that leaves the log alone and keeps the thread where it was in do,
  // or moves it forward without an event.
  ghost predicate Silent(s: State, s': State, t: nat) {
    && t < |s.threads| && |s'.threads| == |s.threads|
    && (forall u | 0 <= u < |s.threads| && u != t :: s'.threads[u] == s.threads[u])
    && s'.threads[t].call == s.threads[t].call
    && (s'.threads[t].pc == s.threads[t].pc
        || (s.threads[t].pc.AtRLock? && s'.threads[t].pc.AtCheck?)
        || (s.threads[t].pc.AtCheck? && s'.threads[t].pc.AtSend?))
    && s'.log == s.log && s'.ctl.stopped == s.ctl.stopped && s'.ctl.com == s.ctl.com
  }

  lemma MoveKeepsLog(s: State, s': State, t: nat)
    requires LogInv(s) && Silent(s, s', t)
    ensures LogInv(s')
  {
    forall u | 0 <= u < |s'.threads| ensures ThreadLog(s', u) { assert ThreadLog(s, u); }
    forall k | 0 <= k < |s'.log.calls| ensures OpenOk(s', k) { assert OpenOk(s, k); }
  }

  // Entering do.
  ghost predicate Invokes(s: State, s': State, t: nat) {
    && t < |s.threads| && |s'.threads| == |s.threads|
    && (forall u | 0 <= u < |s.threads| && u != t :: s'.threads[u] == s.threads[u])
    && s.threads[t].pc.Out? && s'.threads[t].pc.AtRLock? && s'.threads[t].call == |s.log.calls|
    && s'.log == s.log.(calls := s.log.calls +
                           [CallRec(t, s'.threads[t].task, |s.log.history|, None, None, None, None)],
                        history := s.log.history + [Invoke(|s.log.calls|)])
    && s'.ctl == s.ctl
  }

  lemma InvokeKeepsLog(s: State, s': State, t: nat)
    requires LockInv(s) && LogInv(s) && Invokes(s, s', t)
    ensures LogInv(s')
  {
    InvokeKeepsLinear(s.log, t, s'.threads[t].task);
    forall u | 0 <= u < |s'.threads| ensures ThreadLog(s', u) { assert ThreadLog(s, u); }
    forall k | 0 <= k < |s'.log.calls| ensures OpenOk(s', k) {
      if k < |s.log.calls| {
        assert OpenOk(s, k) && ThreadLocks(s, t);
      }
    }
  }

  lemma ClientInvokesOrNot(s: State, a: Action)
    requires Enabled(s, a) && (a.Start? || a.DialStep? || a.ConnStep?)
    ensures Invokes(s, Apply(s, a), a.t) || Silent(s, Apply(s, a), a.t)
  {
  }

  lemma StopKeepsLog(s: State, a: Action)
    requires LockInv(s) && LogInv(s) && Enabled(s, a) && a.StopStep?
    ensures LogInv(Apply(s, a))
  {
    var t, s' := a.t, Apply(s, a);
    assert ThreadLocks(s, t);
    if s.threads[t].task.StopSet? {
      forall u | 0 <= u < |s.threads| ensures s.ctl.com != Running(u) { assert ThreadLocks(s, u); }
      RunningIsOpen(s);
      StopKeepsLinear(s.log);
      forall u | 0 <= u < |s'.threads| ensures ThreadLog(s', u) { assert ThreadLog(s, u); }
      forall k | 0 <= k < |s'.log.calls| ensures OpenOk(s', k) { assert OpenOk(s, k); }
    } else {
      MoveKeepsLog(s, s', t);
    }
  }

  lemma TeardownKeepsLog(s: State, a: Action)
    requires LogInv(s) && Enabled(s, a) && a.TeardownStep?
    ensures LogInv(Apply(s, a))
  {
    var s' := Apply(s, a);
    forall u | 0 <= u < |s'.threads| ensures ThreadLog(s', u) { assert ThreadLog(s, u); }
    forall k | 0 <= k < |s'.log.calls| ensures OpenOk(s', k) { assert OpenOk(s, k); }
  }

  lemma LogKept(s: State, a: Action)
    requires LockInv(s) && LogInv(s) && Enabled(s, a)
    ensures LogInv(Apply(s, a))
  {
    match a
    case RLock(t) => MoveKeepsLog(s, Apply(s, a), t);
    case Check(_) => CheckKeepsLog(s, a);
    case Send(_) => SendKeepsLog(s, a);
    case Finish(_) => FinishKeepsLog(s, a);
    case RUnlock(_) => RUnlockKeepsLog(s, a);
    case StopStep(_) => StopKeepsLog(s, a);
    case TeardownStep => TeardownKeepsLog(s, a);
    case _ =>
      ClientInvokesOrNot(s, a);
      if Invokes(s, Apply(s, a), a.t) { InvokeKeepsLog(s, Apply(s, a), a.t); }
      else { MoveKeepsLog(s, Apply(s, a), a.t); }
  }
}
