/** What a caller gets: each kind of call from the moment it is made to the
    moment it returns, over every run in between, whatever the other threads do.
    A thread makes no other call in between exactly when its budget stays. */
module SessionCalls {
  import opened Prelude
  import opened ComTrace
  import opened SessionMachine
  import opened SessionLocks
  import opened SessionConns
  import opened SessionProcesses
  import opened SessionTrace
  import opened SessionHistory
  import opened SessionClosures
  import opened SessionTheorems

  // The COM trace got call e since s0.
  ghost predicate Since(s0: State, s: State, e: ComCall) {
    exists i :: |s0.world.trace| <= i < |s.world.trace| && s.world.trace[i] == e
  }

  // ------------------------------------------------------------ where a call stands

  // Session.Close: inside, or back with closeOnce done.
  predicate StopDoing(s: State, t: nat)
    requires t < |s.threads|
  {
    var task := s.threads[t].task;
    task.StopEnter? || task.Stopping() || (task.Idle? && s.ctl.once.Spent?)
  }

  // guestConn.Close and CloseWrite of connection c, likewise.
  predicate CloseDoing(s: State, t: nat, c: nat)
    requires t < |s.threads|
  {
    var task := s.threads[t].task;
    && c < |s.world.conns|
    && (task == CloseEnter(c) || task.Closing(c) || (task.Idle? && s.world.conns[c].closeOnce.Spent?))
  }

  predicate ShutDoing(s: State, t: nat, c: nat)
    requires t < |s.threads|
  {
    var task := s.threads[t].task;
    && c < |s.world.conns|
    && (task == ShutEnter(c, false) || (task.Shutting(c) && !task.closing)
        || (task.Idle? && s.world.conns[c].writeOnce.Spent?))
  }

  // Call k is one of thread t's for the display name, made since s0; if its closure
  // ran the service was asked.
  ghost predicate NameCalled(s0: State, s: State, t: nat, k: nat) {
    && |s0.log.calls| <= k < |s.log.calls| && s.log.calls[k].who == t && s.log.calls[k].closure.Naming?
    && (s.log.calls[k].ended.Some? ==> Since(s0, s, GetDisplayName))
  }

  ghost predicate NameDoing(s0: State, s: State, t: nat)
    requires t < |s.threads|
  {
    match s.threads[t].task
    case Naming => NameCalled(s0, s, t, s.threads[t].call)
    case Idle => exists k: nat :: NameCalled(s0, s, t, k) && s.log.calls[k].returned.Some?
    case _ => false
  }

  // The process was created for thread t's dial of target, and its handles handed out.
  ghost predicate MadeFor(s0: State, s: State, t: nat, target: string, proc: Option<nat>) {
    proc.Some? ==> Since(s0, s, CreateProcess(t, BridgeDir, target, proc))
  }

  ghost predicate GotHandles(s0: State, s: State, t: nat, proc: Option<nat>) {
    && proc.Some?
    && Since(s0, s, GetStdHandle(t, proc.value, 0, true)) && Since(s0, s, GetStdHandle(t, proc.value, 1, true))
  }

  // Connection c is one that thread t's dial of target made since s0.
  ghost predicate ConnMade(s0: State, s: State, t: nat, target: string, c: nat) {
    && |s0.world.conns| <= c < |s.world.conns|
    && MadeFor(s0, s, t, target, s.world.conns[c].process)
    && (s.world.conns[c].live ==> GotHandles(s0, s, t, s.world.conns[c].process))
  }

  // Every process thread t asked for since s0 was to serve target.
  ghost predicate OnlyFor(s0: State, s: State, t: nat, target: string) {
    forall i | |s0.world.trace| <= i < |s.world.trace| ::
      s.world.trace[i].CreateProcess? && s.world.trace[i].who == t ==> s.world.trace[i].target == target
  }

  // Session.dial; failed says whether one of its closures reported an error.
  ghost predicate DialDoing(s0: State, s: State, t: nat, target: string, failed: bool)
    requires t < |s.threads|
  {
    var th := s.threads[t];
    && OnlyFor(s0, s, t, target)
    && (!th.task.Idle? ==> th.dialled.None?)
    && match th.task
       case Mounting(tg, _, err) => tg == target && err == failed
       case Creating(tg, _, proc, err) => tg == target && err == failed && MadeFor(s0, s, t, target, proc)
       case Handling(proc, handles, err) =>
         err == failed && MadeFor(s0, s, t, target, proc) && (handles ==> GotHandles(s0, s, t, proc))
       case Discarding(_) => failed
       case Idle =>
         && (th.dialled.None? <==> failed)
         && (th.dialled.Some? ==> ConnMade(s0, s, t, target, th.dialled.value))
       case _ => false
  }

  ghost predicate Doing(s0: State, s: State, t: nat, call: Call, failed: bool)
    requires t < |s.threads|
  {
    match call
    case CloseSessionCall => StopDoing(s, t)
    case CloseConnCall(c) => CloseDoing(s, t, c)
    case CloseWriteCall(c) => ShutDoing(s, t, c)
    case NameCall => NameDoing(s0, s, t)
    case DialCall(target) => DialDoing(s0, s, t, target, failed)
  }

  // ------------------------------------------------------------ closures that fail

  predicate ClosureFails(task: Task, mounted: bool, outcome: Outcome) {
    match task
    case Mounting(_, _, _) => !mounted && (outcome.FailsFirst? || outcome.FailsSecond?)
    case Creating(_, _, _, _) => outcome.FailsFirst?
    case Handling(_, _, _) => outcome.FailsFirst? || outcome.FailsSecond?
    case _ => false
  }

  predicate FailsNow(s: State, a: Action, t: nat) {
    && a.Finish? && s.ctl.com == Running(t) && t < |s.threads|
    && ClosureFails(s.threads[t].task, s.world.bridgeDone, a.outcome)
  }

  // Some closure of thread t reports an error in the run.
  ghost predicate Fails(s: State, actions: seq<Action>, t: nat)
    decreases |actions|
  {
    && actions != [] && Enabled(s, actions[0])
    && (FailsNow(s, actions[0], t) || Fails(Apply(s, actions[0]), actions[1..], t))
  }

  // ------------------------------------------------------------ steps of other threads

  // Thread t stands where it stood, and what it relies on is still there.
  ghost predicate Elsewhere(s: State, s': State, t: nat) {
    && t < |s.threads| == |s'.threads| && s'.threads[t] == s.threads[t]
    && (s.ctl.once.Spent? ==> s'.ctl.once.Spent?)
    && s.world.trace <= s'.world.trace
    && (forall i | |s.world.trace| <= i < |s'.world.trace| ::
          s'.world.trace[i].CreateProcess? ==> s'.world.trace[i].who != t)
    && ConnsLast(s, s')
    && |s.log.calls| <= |s'.log.calls|
    && (forall k | 0 <= k < |s.log.calls| && s.log.calls[k].who == t :: s'.log.calls[k] == s.log.calls[k])
  }

  // Connections keep what they have, and a guard that is done stays so.
  ghost predicate ConnsLast(s: State, s': State) {
    && |s.world.conns| <= |s'.world.conns|
    && forall c | 0 <= c < |s.world.conns| ::
         && s'.world.conns[c].process == s.world.conns[c].process && s'.world.conns[c].live == s.world.conns[c].live
         && (s.world.conns[c].closeOnce.Spent? ==> s'.world.conns[c].closeOnce.Spent?)
         && (s.world.conns[c].writeOnce.Spent? ==> s'.world.conns[c].writeOnce.Spent?)
  }

  lemma SinceStays(s0: State, s: State, s': State, e: ComCall)
    requires Since(s0, s, e) && s.world.trace <= s'.world.trace
    ensures Since(s0, s', e)
  {
  }

  lemma ElsewhereKeepsName(s0: State, s: State, s': State, t: nat)
    requires Elsewhere(s, s', t) && NameDoing(s0, s, t)
    ensures NameDoing(s0, s', t)
  {
    forall k: nat | NameCalled(s0, s, t, k) ensures NameCalled(s0, s', t, k) {
      if s.log.calls[k].ended.Some? { SinceStays(s0, s, s', GetDisplayName); }
    }
  }

  lemma DialStays(s0: State, s: State, s': State, t: nat, target: string, proc: Option<nat>)
    requires s.world.trace <= s'.world.trace
    ensures MadeFor(s0, s, t, target, proc) ==> MadeFor(s0, s', t, target, proc)
    ensures GotHandles(s0, s, t, proc) ==> GotHandles(s0, s', t, proc)
  {
  }

  lemma ElsewhereKeepsDial(s0: State, s: State, s': State, t: nat, target: string, failed: bool)
    requires Elsewhere(s, s', t) && DialDoing(s0, s, t, target, failed)
    ensures DialDoing(s0, s', t, target, failed)
  {
    var th := s.threads[t];
    match th.task {
      case Creating(_, _, proc, _) => DialStays(s0, s, s', t, target, proc);
      case Handling(proc, _, _) => DialStays(s0, s, s', t, target, proc);
      case Idle =>
        if th.dialled.Some? { DialStays(s0, s, s', t, target, s.world.conns[th.dialled.value].process); }
      case _ =>
    }
  }

  lemma ElsewhereKeeps(s0: State, s: State, s': State, t: nat, call: Call, failed: bool)
    requires Elsewhere(s, s', t) && Doing(s0, s, t, call, failed)
    ensures Doing(s0, s', t, call, failed)
  {
    match call
    case NameCall => ElsewhereKeepsName(s0, s, s', t);
    case DialCall(target) => ElsewhereKeepsDial(s0, s, s', t, target, failed);
    case _ =>
  }

  // The thread a step moves.
  predicate MovedBy(s: State, a: Action, t: nat) {
    if a.TeardownStep? then false else if a.Finish? then s.ctl.com == Running(t) else a.t == t
  }

  lemma ConnStepLasts(s: State, a: Action)
    requires ConnInv(s) && Enabled(s, a) && a.ConnStep?
    ensures ConnsLast(s, Apply(s, a))
  {
    assert ThreadConns(s, a.t);
  }

  lemma StepLasts(s: State, a: Action)
    requires Enabled(s, a) && !a.ConnStep?
    ensures ConnsLast(s, Apply(s, a))
  {
  }

  lemma OnceLasts(s: State, a: Action)
    requires LockInv(s) && Enabled(s, a)
    ensures s.ctl.once.Spent? ==> Apply(s, a).ctl.once.Spent?
  {
    if a.StopStep? { assert ThreadLocks(s, a.t); }
  }

  lemma OthersCreate(s: State, a: Action, t: nat)
    requires LockInv(s) && Enabled(s, a) && !MovedBy(s, a, t)
    ensures s.world.trace <= Apply(s, a).world.trace
    ensures forall i | |s.world.trace| <= i < |Apply(s, a).world.trace| ::
              Apply(s, a).world.trace[i].CreateProcess? ==> Apply(s, a).world.trace[i].who != t
  {
  }

  lemma OthersCalls(s: State, a: Action, t: nat)
    requires Inv(s) && Enabled(s, a) && !MovedBy(s, a, t) && t < |s.threads|
    ensures |Apply(s, a).threads| == |s.threads| && Apply(s, a).threads[t] == s.threads[t]
    ensures |s.log.calls| <= |Apply(s, a).log.calls|
    ensures forall k | 0 <= k < |s.log.calls| && s.log.calls[k].who == t ::
              Apply(s, a).log.calls[k] == s.log.calls[k]
  {
    if a.Finish? { RunResolves(s, a.outcome); }
    else if a.RLock? || a.Check? || a.Send? || a.RUnlock? { assert ThreadClosure(s, a.t); InsideKeepsClosure(s, a); }
    else if !a.TeardownStep? { assert ThreadClosure(s, a.t); OutsideKeepsClosure(s, a); }
  }

  lemma StepElsewhere(s: State, a: Action, t: nat)
    requires Inv(s) && Enabled(s, a) && !MovedBy(s, a, t) && t < |s.threads|
    ensures Elsewhere(s, Apply(s, a), t)
  {
    if a.ConnStep? { ConnStepLasts(s, a); } else { StepLasts(s, a); }
    OnceLasts(s, a);
    OthersCreate(s, a, t);
    OthersCalls(s, a, t);
  }

  // ------------------------------------------------------------ the caller's own steps

  // The trace and the connections have only grown since s0.
  predicate Grown(s0: State, s: State) {
    |s0.world.trace| <= |s.world.trace| && |s0.world.conns| <= |s.world.conns|
  }

  // Thread t takes a step of the call it is in.
  ghost predicate Own(s: State, a: Action, t: nat) {
    Inv(s) && Enabled(s, a) && MovedBy(s, a, t) && !a.Start? && t < |s.threads|
  }

  lemma StopStepKeepsStop(s: State, a: Action, t: nat)
    requires Inv(s) && Enabled(s, a) && a == StopStep(t) && t < |s.threads| && StopDoing(s, t)
    ensures |Apply(s, a).threads| == |s.threads| && StopDoing(Apply(s, a), t)
  {
  }

  lemma OwnKeepsStop(s: State, a: Action, t: nat)
    requires Own(s, a, t) && StopDoing(s, t)
    ensures |Apply(s, a).threads| == |s.threads| && StopDoing(Apply(s, a), t)
  {
    assert ThreadLocks(s, t);
    StopStepKeepsStop(s, a, t);
  }

  // Thread t steps on its connection.
  lemma ConnStepKeepsClose(s: State, a: Action, t: nat, c: nat)
    requires Inv(s) && Enabled(s, a) && a == ConnStep(t) && t < |s.threads| && CloseDoing(s, t, c)
    ensures |Apply(s, a).threads| == |s.threads| && CloseDoing(Apply(s, a), t, c)
  {
    assert ThreadConns(s, t);
  }

  // Inside the releasing do.
  lemma ReleaseKeepsClose(s: State, a: Action, t: nat, c: nat)
    requires Own(s, a, t) && !a.ConnStep? && CloseDoing(s, t, c)
    ensures |Apply(s, a).threads| == |s.threads| && CloseDoing(Apply(s, a), t, c)
  {
    assert ThreadLocks(s, t);
  }

  lemma OwnKeepsClose(s: State, a: Action, t: nat, c: nat)
    requires Own(s, a, t) && CloseDoing(s, t, c)
    ensures |Apply(s, a).threads| == |s.threads| && CloseDoing(Apply(s, a), t, c)
  {
    if a.ConnStep? { ConnStepKeepsClose(s, a, t, c); } else { ReleaseKeepsClose(s, a, t, c); }
  }

  lemma OwnKeepsShut(s: State, a: Action, t: nat, c: nat)
    requires Own(s, a, t) && ShutDoing(s, t, c)
    ensures |Apply(s, a).threads| == |s.threads| && ShutDoing(Apply(s, a), t, c)
  {
    assert ThreadLocks(s, t) && ThreadConns(s, t) && ConnOk(s, c);
  }

  // The steps of do that run no closure leave the caller's task and the trace.
  lemma ControlStandsStill(s: State, a: Action, t: nat)
    requires Own(s, a, t) && !a.Finish? && s.threads[t].task.Calls() && !s.threads[t].pc.Out?
    ensures var s' := Apply(s, a);
      && |s'.threads| == |s.threads| && s'.world.trace == s.world.trace && s'.world.conns == s.world.conns
      && s'.threads[t].task == s.threads[t].task && s'.threads[t].call == s.threads[t].call
      && s'.threads[t].dialled == s.threads[t].dialled
  {
  }

  lemma ControlKeepsRecord(s: State, a: Action, t: nat)
    requires Own(s, a, t) && !a.Finish? && s.threads[t].task.Calls() && !s.threads[t].pc.Out?
    ensures var k, s' := s.threads[t].call, Apply(s, a);
      && k < |s.log.calls| == |s'.log.calls|
      && s'.log.calls[k].who == s.log.calls[k].who && s'.log.calls[k].closure == s.log.calls[k].closure
      && s'.log.calls[k].ended == s.log.calls[k].ended
  {
    assert ThreadLog(s, t);
  }

  lemma NameEnds(s0: State, s: State, outcome: Outcome, t: nat)
    requires Inv(s) && s.ctl.com == Running(t) && t < |s.threads| && s.threads[t].task.Naming?
    requires NameDoing(s0, s, t) && |s0.world.trace| <= |s.world.trace|
    ensures |DoFinish(s, outcome).threads| == |s.threads| && NameDoing(s0, DoFinish(s, outcome), t)
  {
    var s' := DoFinish(s, outcome);
    assert ThreadLocks(s, t) && ThreadLog(s, t);
    assert s'.world.trace[|s.world.trace|] == GetDisplayName;
    assert NameCalled(s0, s', t, s.threads[t].call);
  }

  lemma NameIsOver(s0: State, s: State, a: Action, t: nat)
    requires Own(s, a, t) && !a.Finish? && NameDoing(s0, s, t) && s.threads[t].task.Naming? && s.threads[t].pc.Out?
    ensures |Apply(s, a).threads| == |s.threads| && NameDoing(s0, Apply(s, a), t)
  {
    var s', k := Apply(s, a), s.threads[t].call;
    assert OpenOk(s, k);
    assert s' == s.(threads := Go(s, t, Idle));
    assert NameCalled(s0, s', t, k);
  }

  lemma OwnKeepsName(s0: State, s: State, a: Action, t: nat)
    requires Own(s, a, t) && NameDoing(s0, s, t) && |s0.world.trace| <= |s.world.trace|
    ensures |Apply(s, a).threads| == |s.threads| && NameDoing(s0, Apply(s, a), t)
  {
    assert ThreadLocks(s, t);
    if a.Finish? {
      NameEnds(s0, s, a.outcome, t);
    } else if s.threads[t].pc.Out? {
      NameIsOver(s0, s, a, t);
    } else {
      ControlStandsStill(s, a, t);
      ControlKeepsRecord(s, a, t);
      assert NameCalled(s0, Apply(s, a), t, s.threads[t].call);
    }
  }

  lemma DialGoesOn(s0: State, s: State, t: nat, target: string, failed: bool)
    requires t < |s.threads| && s.threads[t].pc.Out? && !s.threads[t].task.Handling?
    requires DialDoing(s0, s, t, target, failed) && DialOk(s, t)
    requires var task := s.threads[t].task; task.Mounting? || task.Creating? || task.Discarding?
    ensures |DoDial(s, t).threads| == |s.threads| && DialDoing(s0, DoDial(s, t), t, target, failed)
  {
  }

  lemma DialConnects(s0: State, s: State, t: nat, target: string, failed: bool)
    requires t < |s.threads| && s.threads[t].pc.Out? && s.threads[t].task.Handling?
    requires DialDoing(s0, s, t, target, failed) && DialOk(s, t) && |s0.world.conns| <= |s.world.conns|
    ensures |DoDial(s, t).threads| == |s.threads| && DialDoing(s0, DoDial(s, t), t, target, failed)
  {
  }

  lemma OwnKeepsDialOutside(s0: State, s: State, a: Action, t: nat, target: string, failed: bool)
    requires Own(s, a, t) && !a.Finish? && DialDoing(s0, s, t, target, failed)
    requires |s0.world.conns| <= |s.world.conns|
    ensures |Apply(s, a).threads| == |s.threads| && DialDoing(s0, Apply(s, a), t, target, failed)
  {
    assert ThreadLocks(s, t) && DialOk(s, t);
    if !s.threads[t].pc.Out? {
      ControlStandsStill(s, a, t);
    } else if s.threads[t].task.Handling? {
      DialConnects(s0, s, t, target, failed);
    } else {
      DialGoesOn(s0, s, t, target, failed);
    }
  }

  lemma OwnKeepsDialMount(s0: State, s: State, outcome: Outcome, t: nat, target: string, failed: bool)
    requires Inv(s) && s.ctl.com == Running(t) && t < |s.threads| && s.threads[t].task.Mounting?
    requires DialDoing(s0, s, t, target, failed)
    ensures var s' := DoFinish(s, outcome);
      && |s'.threads| == |s.threads|
      && DialDoing(s0, s', t, target, failed || ClosureFails(s.threads[t].task, s.world.bridgeDone, outcome))
  {
    assert ThreadLocks(s, t) && DialOk(s, t);
  }

  lemma OwnKeepsDialCreate(s0: State, s: State, outcome: Outcome, t: nat, target: string, failed: bool)
    requires Inv(s) && s.ctl.com == Running(t) && t < |s.threads| && s.threads[t].task.Creating?
    requires DialDoing(s0, s, t, target, failed) && |s0.world.trace| <= |s.world.trace|
    ensures var s' := DoFinish(s, outcome);
      && |s'.threads| == |s.threads|
      && DialDoing(s0, s', t, target, failed || ClosureFails(s.threads[t].task, s.world.bridgeDone, outcome))
  {
    assert ThreadLocks(s, t) && DialOk(s, t);
    var s' := DoFinish(s, outcome);
    var proc := if outcome.FailsFirst? then None else Some(|s.world.fates|);
    CreateAnswers(s, outcome, proc);
    assert s'.world.trace[|s.world.trace|] == CreateProcess(t, BridgeDir, target, proc);
  }

  // The handles of process p were looked up.
  lemma LookupKeepsDial(s0: State, s: State, s': State, t: nat, target: string, p: nat, outcome: Outcome)
    requires t < |s.threads| == |s'.threads| && DialDoing(s0, s, t, target, false) && Grown(s0, s)
    requires s.threads[t].task == Handling(Some(p), false, false) && s'.threads[t].dialled == s.threads[t].dialled
    requires s'.threads[t].task == Handling(Some(p), LookupOk(outcome), !LookupOk(outcome))
    requires s'.world.trace == s.world.trace + LookupCalls(t, p, outcome)
    ensures DialDoing(s0, s', t, target, !LookupOk(outcome))
  {
    DialStays(s0, s, s', t, target, Some(p));
    if LookupOk(outcome) {
      var n := |s.world.trace|;
      assert s'.world.trace[n] == GetStdHandle(t, p, 0, true);
      assert s'.world.trace[n + 1] == GetStdHandle(t, p, 1, true);
      assert GotHandles(s0, s', t, Some(p));
    }
  }

  lemma OwnKeepsDialHandle(s0: State, s: State, outcome: Outcome, t: nat, target: string, failed: bool)
    requires Inv(s) && s.ctl.com == Running(t) && t < |s.threads| && s.threads[t].task.Handling?
    requires DialDoing(s0, s, t, target, failed) && Grown(s0, s)
    ensures var s' := DoFinish(s, outcome);
      && |s'.threads| == |s.threads|
      && DialDoing(s0, s', t, target, failed || ClosureFails(s.threads[t].task, s.world.bridgeDone, outcome))
  {
    assert ThreadLocks(s, t) && DialOk(s, t);
    var p := s.threads[t].task.proc.value;
    HandleAnswers(s, outcome, p);
    LookupKeepsDial(s0, s, DoFinish(s, outcome), t, target, p, outcome);
  }

  lemma OwnKeepsDialDiscard(s0: State, s: State, outcome: Outcome, t: nat, target: string, failed: bool)
    requires Inv(s) && s.ctl.com == Running(t) && t < |s.threads| && s.threads[t].task.Discarding?
    requires DialDoing(s0, s, t, target, failed)
    ensures var s' := DoFinish(s, outcome); |s'.threads| == |s.threads| && DialDoing(s0, s', t, target, failed)
  {
    assert ThreadLocks(s, t);
  }

  lemma OwnKeepsDial(s0: State, s: State, a: Action, t: nat, target: string, failed: bool)
    requires Own(s, a, t) && DialDoing(s0, s, t, target, failed) && Grown(s0, s)
    ensures |Apply(s, a).threads| == |s.threads|
    ensures DialDoing(s0, Apply(s, a), t, target, failed || FailsNow(s, a, t))
  {
    if a.Finish? {
      assert ThreadLocks(s, t);
      match s.threads[t].task {
        case Mounting(_, _, _) => OwnKeepsDialMount(s0, s, a.outcome, t, target, failed);
        case Creating(_, _, _, _) => OwnKeepsDialCreate(s0, s, a.outcome, t, target, failed);
        case Handling(_, _, _) => OwnKeepsDialHandle(s0, s, a.outcome, t, target, failed);
        case Discarding(_) => OwnKeepsDialDiscard(s0, s, a.outcome, t, target, failed);
      }
    } else {
      OwnKeepsDialOutside(s0, s, a, t, target, failed);
    }
  }

  lemma OwnKeeps(s0: State, s: State, a: Action, t: nat, call: Call, failed: bool)
    requires Own(s, a, t) && Doing(s0, s, t, call, failed) && Grown(s0, s)
    ensures |Apply(s, a).threads| == |s.threads| && Doing(s0, Apply(s, a), t, call, failed || FailsNow(s, a, t))
  {
    match call
    case CloseSessionCall => OwnKeepsStop(s, a, t);
    case CloseConnCall(c) => OwnKeepsClose(s, a, t, c);
    case CloseWriteCall(c) => OwnKeepsShut(s, a, t, c);
    case NameCall => OwnKeepsName(s0, s, a, t);
    case DialCall(target) => OwnKeepsDial(s0, s, a, t, target, failed);
  }

  // ------------------------------------------------------------ the whole call

  lemma BudgetFalls(s: State, a: Action, t: nat)
    requires Enabled(s, a) && t < |s.threads|
    ensures |Apply(s, a).threads| == |s.threads| && Apply(s, a).threads[t].budget <= s.threads[t].budget
    ensures a.Start? && a.t == t ==> Apply(s, a).threads[t].budget < s.threads[t].budget
  {
  }

  lemma {:induction false} BudgetOver(s: State, actions: seq<Action>, s': State, t: nat)
    requires Run(s, actions, s') && t < |s.threads|
    ensures |s'.threads| == |s.threads| && s'.threads[t].budget <= s.threads[t].budget
    decreases |actions|
  {
    if actions != [] {
      BudgetFalls(s, actions[0], t);
      BudgetOver(Apply(s, actions[0]), actions[1..], s', t);
    }
  }

  lemma ConnsGrow(s: State, a: Action)
    requires Enabled(s, a)
    ensures |s.world.conns| <= |Apply(s, a).world.conns|
  {
  }

  lemma StepDoes(s0: State, s: State, a: Action, t: nat, call: Call, failed: bool)
    requires Inv(s) && Enabled(s, a) && t < |s.threads| && Doing(s0, s, t, call, failed)
    requires Grown(s0, s) && !(a.Start? && a.t == t)
    ensures |Apply(s, a).threads| == |s.threads| && Doing(s0, Apply(s, a), t, call, failed || FailsNow(s, a, t))
  {
    if MovedBy(s, a, t) {
      OwnKeeps(s0, s, a, t, call, failed);
    } else {
      StepElsewhere(s, a, t);
      ElsewhereKeeps(s0, s, Apply(s, a), t, call, failed);
    }
  }

  lemma {:induction false} RunDoes(s0: State, s: State, actions: seq<Action>, s': State, t: nat, call: Call,
                                   failed: bool)
    requires Inv(s) && Run(s, actions, s') && t < |s.threads| && Doing(s0, s, t, call, failed)
    requires Grown(s0, s)
    requires |s'.threads| == |s.threads| && s'.threads[t].budget == s.threads[t].budget
    ensures Inv(s') && Doing(s0, s', t, call, failed || Fails(s, actions, t))
    decreases |actions|
  {
    if actions != [] {
      var a, next := actions[0], Apply(s, actions[0]);
      BudgetFalls(s, a, t);
      BudgetOver(next, actions[1..], s', t);
      StepDoes(s0, s, a, t, call, failed);
      TraceGrows(s, a);
      ConnsGrow(s, a);
      InvKept(s, a);
      RunDoes(s0, next, actions[1..], s', t, call, failed || FailsNow(s, a, t));
    }
  }

  // In s', after some of the run from the moment thread t made the call in s, the
  // thread has made no other call.
  ghost predicate Within(s: State, t: nat, call: Call, actions: seq<Action>, s': State) {
    && Reachable(s) && Enabled(s, Start(t, call)) && Run(Apply(s, Start(t, call)), actions, s')
    && t < |s'.threads| && s'.threads[t].budget + 1 == s.threads[t].budget
  }

  // And has returned from it.
  ghost predicate Returned(s: State, t: nat, call: Call, actions: seq<Action>, s': State) {
    Within(s, t, call, actions, s') && s'.threads[t].task.Idle?
  }

  lemma StartDoes(s: State, t: nat, call: Call)
    requires Inv(s) && Enabled(s, Start(t, call))
    ensures var s' := Apply(s, Start(t, call));
      && |s'.threads| == |s.threads| && s'.threads[t].budget + 1 == s.threads[t].budget
      && Grown(s, s') && Doing(s, s', t, call, false)
  {
  }

  lemma CallDoes(s: State, t: nat, call: Call, actions: seq<Action>, s': State)
    requires Within(s, t, call, actions, s')
    ensures Inv(s') && Doing(s, s', t, call, Fails(Apply(s, Start(t, call)), actions, t))
  {
    var s1 := Apply(s, Start(t, call));
    ReachableInv(s);
    StartDoes(s, t, call);
    InvKept(s, Start(t, call));
    BudgetOver(s1, actions, s', t);
    RunDoes(s, s1, actions, s', t, call, false);
  }

  // ------------------------------------------------------------ what the caller gets

  /** When a caller's Session.Close returns, also a second, concurrent one, both
      references are gone and the COM trace is complete. */
  lemma CloseReturnsAfterTeardown(s: State, t: nat, actions: seq<Action>, s': State)
    requires Returned(s, t, CloseSessionCall, actions, s')
    ensures s'.ctl.closed && Complete(s'.world.trace)
  {
    CallDoes(s, t, CloseSessionCall, actions, s');
    CompleteWhenGone(s'.world.trace);
  }

  /** When a caller's Close of a connection returns, whoever else closed it or its
      write side before or meanwhile, the write side has been shut, both handles
      closed and the release asked for, once each, in that order. */
  lemma ConnCloseReturns(s: State, t: nat, c: nat, actions: seq<Action>, s': State)
    requires Returned(s, t, CloseConnCall(c), actions, s')
    ensures c < |s'.world.conns| && s'.world.conns[c].closeOnce.Spent? && s'.world.conns[c].ops == TEARDOWN
  {
    CallDoes(s, t, CloseConnCall(c), actions, s');
    assert ConnOk(s', c);
  }

  /** When a caller's CloseWrite returns, the write side has been shut. */
  lemma CloseWriteReturns(s: State, t: nat, c: nat, actions: seq<Action>, s': State)
    requires Returned(s, t, CloseWriteCall(c), actions, s')
    ensures c < |s'.world.conns| && s'.world.conns[c].writeOnce.Spent? && ShutWrite in s'.world.conns[c].ops
  {
    CallDoes(s, t, CloseWriteCall(c), actions, s');
    assert ConnOk(s', c);
    assert s'.world.conns[c].ops[0] == ShutWrite;
  }

  /** When DisplayName returns, its closure has asked the service, unless the
      session was stopped before. */
  lemma NameReturns(s: State, t: nat, actions: seq<Action>, s': State) returns (k: nat)
    requires Returned(s, t, NameCall, actions, s')
    ensures |s.log.calls| <= k < |s'.log.calls| && s'.log.calls[k].who == t && s'.log.calls[k].closure.Naming?
    ensures Settled(s'.log.calls[k])
    ensures s'.log.calls[k].ended.Some? ==> Since(s, s', GetDisplayName)
  {
    CallDoes(s, t, NameCall, actions, s');
    k :| NameCalled(s, s', t, k) && s'.log.calls[k].returned.Some?;
    assert CallOk(s'.log, k);
  }

  /** Every process a dial asks for is asked to serve the dialled target, and no
      other, whatever other dials are in progress. */
  lemma DialServesItsTarget(s: State, t: nat, target: string, actions: seq<Action>, s': State)
    requires Within(s, t, DialCall(target), actions, s')
    ensures forall i | |s.world.trace| <= i < |s'.world.trace| ::
              s'.world.trace[i].CreateProcess? && s'.world.trace[i].who == t ==> s'.world.trace[i].target == target
  {
    CallDoes(s, t, DialCall(target), actions, s');
  }

  /** An error a dial reports is the service's, told by the last COM call made, or
      else the bridge could not be extracted and no call was made at all. */
  lemma ErrorsAreReal(s: State, a: Action, t: nat)
    requires Reachable(s) && Enabled(s, a) && FailsNow(s, a, t)
    ensures var trace, trace' := s.world.trace, Apply(s, a).world.trace;
      || (s.threads[t].task.Mounting? && a.outcome.FailsFirst? && trace' == trace)
      || (s.threads[t].task.Mounting? && trace' == trace + [MountFolder(false)])
      || (s.threads[t].task.Creating? && |trace'| == |trace| + 1
          && trace'[|trace|] == CreateProcess(t, BridgeDir, s.threads[t].task.target, None))
      || (s.threads[t].task.Handling? && |trace'| > |trace|
          && trace'[|trace'| - 1].GetStdHandle? && trace'[|trace'| - 1].who == t && !trace'[|trace'| - 1].ok)
  {
    ReachableInv(s);
    assert ThreadLocks(s, t) && DialOk(s, t);
    match s.threads[t].task
    case Mounting(_, _, _) => if !a.outcome.FailsFirst? { MountAnswers(s, a.outcome); }
    case Creating(_, _, _, _) => CreateAnswers(s, a.outcome, None);
    case Handling(proc, _, _) => HandleAnswers(s, a.outcome, proc.value);
  }

  /** What a dial returns: an error if and only if one of its closures reported
      one; else a connection made in this call, whose process, if it has one, was
      created in this call for the dialled target by the bridge script, and whose
      handles, if it has them, are those of that process; and it has both as long
      as nobody has stopped the session. */
  lemma DialReturns(s: State, t: nat, target: string, actions: seq<Action>, s': State)
    requires Returned(s, t, DialCall(target), actions, s')
    ensures s'.threads[t].dialled.None? <==> Fails(Apply(s, Start(t, DialCall(target))), actions, t)
    ensures s'.threads[t].dialled.Some? ==>
      var c := s'.threads[t].dialled.value;
      ConnMade(s, s', t, target, c) && (!s'.ctl.stopped ==> s'.world.conns[c].process.Some? && s'.world.conns[c].live)
  {
    CallDoes(s, t, DialCall(target), actions, s');
  }

  // ------------------------------------------------------------ calls that come too late

  // A Close has asked for the write lock, or has had it.
  predicate Ending(s: State) {
    !s.ctl.writer.Free? || s.ctl.stopped
  }

  // The calls from number n on wait outside the lock, or are turned away.
  ghost predicate Late(s: State, n: nat) {
    && Ending(s)
    && (forall k | n <= k < |s.log.calls| :: s.log.calls[k].begun.None?)
    && (forall t | 0 <= t < |s.threads| :: LateThread(s, n, s.threads[t]))
  }

  predicate LateThread(s: State, n: nat, th: Thread) {
    !th.pc.Out? && th.call >= n ==> th.pc.AtRLock? || (s.ctl.stopped && (th.pc.AtCheck? || th.pc.AtRUnlock?))
  }

  lemma EndingLasts(s: State, a: Action)
    requires LockInv(s) && Enabled(s, a) && Ending(s)
    ensures Ending(Apply(s, a)) && (s.ctl.stopped ==> Apply(s, a).ctl.stopped)
  {
    if a.StopStep? { assert ThreadLocks(s, a.t); }
  }

  lemma DoKeepsLate(s: State, a: Action, n: nat)
    requires Inv(s) && Enabled(s, a) && Late(s, n) && (a.RLock? || a.Check? || a.Send? || a.RUnlock?)
    ensures Late(Apply(s, a), n)
  {
    EndingLasts(s, a);
    assert ThreadLog(s, a.t) && LateThread(s, n, s.threads[a.t]);
  }

  lemma FinishKeepsLate(s: State, a: Action, n: nat)
    requires Inv(s) && Enabled(s, a) && Late(s, n) && a.Finish?
    ensures Late(Apply(s, a), n)
  {
    EndingLasts(s, a);
    assert ThreadLog(s, s.ctl.com.who) && ThreadLocks(s, s.ctl.com.who);
    assert LateThread(s, n, s.threads[s.ctl.com.who]);
  }

  lemma OutsideKeepsLate(s: State, a: Action, n: nat)
    requires Inv(s) && Enabled(s, a) && Late(s, n) && (a.Start? || a.DialStep? || a.ConnStep?)
    ensures Late(Apply(s, a), n)
  {
    EndingLasts(s, a);
    match a {
      case Start(_, _) => StartEntersOrGoesOn(s, a);
      case DialStep(_) => DialEntersOrGoesOn(s, a);
      case ConnStep(_) => ConnEntersOrGoesOn(s, a);
    }
    OutsideStaysOut(s, a);
  }

  lemma OutsideStaysOut(s: State, a: Action)
    requires Enabled(s, a) && (a.Start? || a.DialStep? || a.ConnStep?)
    ensures |Apply(s, a).threads| == |s.threads| && Apply(s, a).ctl == s.ctl
    ensures Apply(s, a).threads[a.t].pc.Out? || Apply(s, a).threads[a.t].pc.AtRLock?
  {
  }

  lemma EndKeepsLate(s: State, a: Action, n: nat)
    requires Inv(s) && Enabled(s, a) && Late(s, n) && (a.StopStep? || a.TeardownStep?)
    ensures Late(Apply(s, a), n)
  {
    EndingLasts(s, a);
    if a.StopStep? { assert ThreadLocks(s, a.t); }
  }

  lemma {:induction false} LateForGood(s: State, actions: seq<Action>, s': State, n: nat)
    requires Inv(s) && Run(s, actions, s') && Late(s, n)
    ensures Late(s', n)
    decreases |actions|
  {
    if actions != [] {
      var a := actions[0];
      match a {
        case Finish(_) => FinishKeepsLate(s, a, n);
        case StopStep(_) => EndKeepsLate(s, a, n);
        case TeardownStep => EndKeepsLate(s, a, n);
        case Start(_, _) => OutsideKeepsLate(s, a, n);
        case DialStep(_) => OutsideKeepsLate(s, a, n);
        case ConnStep(_) => OutsideKeepsLate(s, a, n);
        case _ => DoKeepsLate(s, a, n);
      }
      InvKept(s, a);
      LateForGood(Apply(s, a), actions[1..], s', n);
    }
  }

  /** Close lets in nobody who comes after it: a call to do made once a Close has
      asked for the write lock never runs its closure, even while earlier readers
      still keep that Close waiting. */
  lemma LateCallsNeverRun(s: State, actions: seq<Action>, s': State, k: nat)
    requires Reachable(s) && Ending(s) && Run(s, actions, s') && |s.log.calls| <= k < |s'.log.calls|
    ensures s'.log.calls[k].begun.None? && s'.log.calls[k].ended.None?
  {
    ReachableInv(s);
    forall t | 0 <= t < |s.threads| ensures LateThread(s, |s.log.calls|, s.threads[t]) { assert ThreadLog(s, t); }
    LateForGood(s, actions, s', |s.log.calls|);
    ReachableOn(s, actions, s');
    ReachableInv(s');
    assert CallOk(s'.log, k);
  }
}
