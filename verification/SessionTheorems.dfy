/** Whole-run theorems about a session: statements over every reachable state,
    for any number of threads, any scripts, any interleaving and any outcome of
    the foreign calls. */
module SessionTheorems {
  import opened Prelude
  import opened ComTrace
  import opened SessionMachine
  import opened SessionLocks
  import opened SessionConns
  import opened SessionProcesses
  import opened SessionTrace
  import opened SessionHistory
  import opened SessionClosures
  import opened SessionProgress

  ghost predicate Inv(s: State) {
    && LockInv(s) && ConnInv(s) && DialInv(s) && FateInv(s)
    && TraceInv(s) && HandleInv(s) && HandleFateInv(s)
    && LogInv(s) && ClosureInv(s)
  }

  lemma InvKept(s: State, a: Action)
    requires Inv(s) && Enabled(s, a)
    ensures Inv(Apply(s, a))
  {
    LocksKept(s, a);
    ConnsKept(s, a);
    DialsKept(s, a);
    FatesKept(s, a);
    TraceKept(s, a);
    HandlesKept(s, a);
    HandleFatesKept(s, a);
    LogKept(s, a);
    ClosuresKept(s, a);
  }

  lemma {:induction false} RunKeepsInv(s: State, actions: seq<Action>, s': State)
    requires Inv(s) && Run(s, actions, s')
    ensures Inv(s')
    decreases |actions|
  {
    if actions != [] {
      InvKept(s, actions[0]);
      RunKeepsInv(Apply(s, actions[0]), actions[1..], s');
    }
  }

  lemma InitInv(s: State)
    requires Init(s)
    ensures Inv(s)
  {
    InitLocks(s);
    InitHandles(s);
  }

  lemma ReachableInv(s: State)
    requires Reachable(s)
    ensures Inv(s)
  {
    var s0, actions :| Init(s0) && Run(s0, actions, s);
    InitInv(s0);
    RunKeepsInv(s0, actions, s);
  }

  // ------------------------------------------------------------ safety

  /** No run sends on the closed request channel, closes a channel twice, or
      calls GetStdHandle on a nil process: the one panic a run can end in is a
      Close evaluating Release on a connection whose process is nil. */
  lemma OnlyNilRelease(s: State)
    requires Reachable(s)
    ensures s.fault.NoFault? || s.fault.NilRelease?
  {
    ReachableInv(s);
  }

  /** Why the channel is safe: once it is closed the session is stopped, and no
      thread stands between its stopped check and its read-unlock with a
      closure still to send or to wait for. */
  lemma ClosedChannelIsQuiet(s: State, t: nat)
    requires Reachable(s) && t < |s.threads| && s.ctl.chClosed
    ensures s.ctl.stopped
    ensures !s.threads[t].pc.AtSend? && !s.threads[t].pc.AtDone?
  {
    ReachableInv(s);
    assert ThreadLocks(s, t);
  }

  /** Exactly when a step panics: thread t is in Close of a connection whose
      process reference is nil. */
  lemma PanicsExactly(s: State, a: Action)
    requires Reachable(s) && Enabled(s, a)
    ensures !Apply(s, a).fault.NoFault? <==>
      && a.ConnStep? && s.threads[a.t].task.CloseEval?
      && s.world.conns[s.threads[a.t].task.conn].process.None?
  {
    ReachableInv(s);
    InvKept(s, a);
    if a.DialStep? { assert DialOk(s, a.t); }
  }

  lemma StepKeepsConn(s: State, a: Action, c: nat)
    requires Enabled(s, a) && c < |s.world.conns|
    ensures var conns := Apply(s, a).world.conns;
      c < |conns| && conns[c].process == s.world.conns[c].process && conns[c].live == s.world.conns[c].live
  {
  }

  // A connection keeps its process and its handles for good.
  lemma {:induction false} ConnIsPermanent(s: State, actions: seq<Action>, s': State, c: nat)
    requires Run(s, actions, s') && c < |s.world.conns|
    ensures c < |s'.world.conns|
    ensures s'.world.conns[c].process == s.world.conns[c].process && s'.world.conns[c].live == s.world.conns[c].live
    decreases |actions|
  {
    if actions != [] {
      StepKeepsConn(s, actions[0], c);
      ConnIsPermanent(Apply(s, actions[0]), actions[1..], s', c);
    }
  }

  lemma {:induction false} RunOn(s0: State, actions: seq<Action>, s: State, more: seq<Action>, s': State)
    requires Run(s0, actions, s) && Run(s, more, s')
    ensures Run(s0, actions + more, s')
    decreases |actions|
  {
    if actions == [] {
      assert actions + more == more;
    } else {
      RunOn(Apply(s0, actions[0]), actions[1..], s, more, s');
      assert (actions + more)[1..] == actions[1..] + more;
    }
  }

  lemma ReachableOn(s: State, actions: seq<Action>, s': State)
    requires Reachable(s) && Run(s, actions, s')
    ensures Reachable(s')
  {
    var s0, before :| Init(s0) && Run(s0, before, s);
    RunOn(s0, before, s, actions, s');
  }

  lemma StepIsRun(s: State, a: Action)
    requires Enabled(s, a)
    ensures Run(s, [a], Apply(s, a))
  {
    assert Run(Apply(s, a), [], Apply(s, a));
  }

  // No step of CloseWrite or Close on connection c panics.
  ghost predicate SafeToClose(s: State, c: nat) {
    forall u: nat | Enabled(s, ConnStep(u)) && s.threads[u].task.conn == c :: Apply(s, ConnStep(u)).fault.NoFault?
  }

  lemma WholeIsSafe(s: State, c: nat)
    requires Reachable(s) && c < |s.world.conns| && s.world.conns[c].process.Some?
    ensures SafeToClose(s, c)
  {
    forall u: nat | Enabled(s, ConnStep(u)) && s.threads[u].task.conn == c
      ensures Apply(s, ConnStep(u)).fault.NoFault?
    {
      PanicsExactly(s, ConnStep(u));
    }
  }

  /** A connection made while the session is live has a process and both its
      handles, as the service handed them out, and keeps them for good: no step
      of its Close ever panics, also long after the session was closed. */
  lemma LiveDialsAreWhole(s: State, c: nat, actions: seq<Action>, s': State)
    requires Reachable(s) && !s.ctl.stopped && c < |s.world.conns| && Run(s, actions, s')
    ensures c < |s'.world.conns| && s'.world.conns[c].process.Some? && s'.world.conns[c].live
    ensures LookedUp(s.world.trace, s'.world.conns[c].process.value)
    ensures SafeToClose(s', c)
  {
    ReachableInv(s);
    ConnIsPermanent(s, actions, s', c);
    ReachableOn(s, actions, s');
    WholeIsSafe(s', c);
  }

  // Thread t's dial is about to return a connection and no error.
  predicate Yields(s: State, t: nat) {
    Enabled(s, DialStep(t)) && s.threads[t].task.Handling? && !s.threads[t].task.err
  }

  // Call k was settled before the session was stopped, if it ever was.
  predicate BeforeStop(log: Log, k: nat)
    requires k < |log.calls| && Settled(log.calls[k])
  {
    var r := log.calls[k];
    log.stopAt.None? || (if r.ended.Some? then r.ended.value else r.skipped.value) < log.stopAt.value
  }

  /** A call's closure ran exactly when the call was settled before the stop. */
  lemma RanExactly(s: State, k: nat)
    requires Reachable(s) && k < |s.log.calls| && Settled(s.log.calls[k])
    ensures s.log.calls[k].ended.Some? <==> BeforeStop(s.log, k)
    ensures s.log.calls[k].skipped.Some? <==> !BeforeStop(s.log, k)
  {
    ReachableInv(s);
    assert CallOk(s.log, k);
  }

  /** What a dial that reports no error returns: the connection has a process
      exactly when the call that was to create it, its last but one, was settled
      before the session was stopped, and has its handles exactly when its last
      call, the lookup, was. */
  lemma DialIsWholeExactly(s: State, t: nat) returns (creation: nat, lookup: nat)
    requires Reachable(s) && Yields(s, t)
    ensures lookup == s.threads[t].call < |s.log.calls| && PreviousCall(s.log.calls, creation, lookup)
    ensures s.log.calls[creation].who == t && s.log.calls[creation].closure.Creating?
    ensures s.log.calls[lookup].closure.Handling?
    ensures Settled(s.log.calls[creation]) && Settled(s.log.calls[lookup])
    ensures var c, conns := |s.world.conns|, Apply(s, DialStep(t)).world.conns;
      && |conns| == c + 1
      && (conns[c].process.Some? <==> BeforeStop(s.log, creation))
      && (conns[c].live <==> BeforeStop(s.log, lookup))
  {
    ReachableInv(s);
    lookup := s.threads[t].call;
    var proc := s.threads[t].task.proc;
    assert ThreadClosure(s, t);
    creation :| PreviousCall(s.log.calls, creation, lookup) && s.log.calls[creation].closure.Creating?
                && (proc.Some? <==> s.log.calls[creation].ended.Some?);
    EarlierIsSettled(s, t, creation);
    RanExactly(s, creation);
    RanExactly(s, lookup);
  }

  // A thread's calls before the one it is in have been settled.
  lemma EarlierIsSettled(s: State, t: nat, k: nat)
    requires Reachable(s) && t < |s.threads| && k < |s.log.calls| && s.log.calls[k].who == t && k != s.threads[t].call
    ensures Settled(s.log.calls[k])
  {
    ReachableInv(s);
    assert OpenOk(s, k) && CallOk(s.log, k);
  }

  /** Exactly when closing a connection panics: whatever happens between the dial
      that returned it and the step of Close that evaluates the release, it panics
      if and only if the call that was to create the process came too late for
      the stop. */
  lemma ClosePanicsExactly(s: State, t: nat, actions: seq<Action>, s': State, u: nat) returns (creation: nat)
    requires Reachable(s) && Yields(s, t) && Run(Apply(s, DialStep(t)), actions, s')
    requires Enabled(s', ConnStep(u)) && s'.threads[u].task == CloseEval(|s.world.conns|)
    ensures PreviousCall(s.log.calls, creation, s.threads[t].call) && s.log.calls[creation].closure.Creating?
    ensures Settled(s.log.calls[creation])
    ensures Apply(s', ConnStep(u)).fault.NilRelease? <==> !BeforeStop(s.log, creation)
  {
    var lookup;
    creation, lookup := DialIsWholeExactly(s, t);
    StepIsRun(s, DialStep(t));
    ReachableOn(s, [DialStep(t)], Apply(s, DialStep(t)));
    ReachableOn(Apply(s, DialStep(t)), actions, s');
    ConnIsPermanent(Apply(s, DialStep(t)), actions, s', |s.world.conns|);
    PanicsExactly(s', ConnStep(u));
    StepIsRun(s', ConnStep(u));
    ReachableOn(s', [ConnStep(u)], Apply(s', ConnStep(u)));
    OnlyNilRelease(Apply(s', ConnStep(u)));
  }

  // ------------------------------------------------------------ complete traces

  /** Boot, requests, then Terminate, session Release and manager Release. */
  ghost predicate Complete(trace: seq<ComCall>) {
    exists volumes, requests :: Shaped(trace, volumes, requests, 3)
  }

  lemma CompleteWhenGone(trace: seq<ComCall>)
    requires Verdict(trace).Some? && Verdict(trace).value.phase.ManagerGone?
    ensures Complete(trace)
  {
    var volumes, requests := AcceptedShape(trace);
    assert Shaped(trace, volumes, requests, 3);
  }

  // ------------------------------------------------------------ liveness

  lemma {:induction false} RunsAreShort(s: State, actions: seq<Action>, s': State)
    requires LockInv(s) && Run(s, actions, s')
    ensures |actions| + Rank(s') <= Rank(s)
    decreases |actions|
  {
    if actions != [] {
      LocksKept(s, actions[0]);
      RankFalls(s, actions[0]);
      RunsAreShort(Apply(s, actions[0]), actions[1..], s');
    }
  }

  /** Every run from a reachable state is finite, with a bound known beforehand. */
  lemma Termination(s: State, actions: seq<Action>, s': State)
    requires Reachable(s) && Run(s, actions, s')
    ensures |actions| <= Rank(s)
  {
    ReachableInv(s);
    RunsAreShort(s, actions, s');
  }

  // All the calls the threads may make.
  function Budget(threads: seq<Thread>): nat {
    if threads == [] then 0 else threads[0].budget + Budget(threads[1..])
  }

  lemma {:induction false} IdleRank(threads: seq<Thread>)
    requires forall t | 0 <= t < |threads| :: !Busy(threads[t])
    ensures Total(threads) == 25 * Budget(threads)
  {
    if threads != [] { IdleRank(threads[1..]); }
  }

  /** A session whose threads make n calls in all takes at most 25 n + 6 steps. */
  lemma RunsAreLinear(s: State, actions: seq<Action>, s': State)
    requires Init(s) && Run(s, actions, s')
    ensures |actions| <= 25 * Budget(s.threads) + 6
  {
    InitInv(s);
    RunsAreShort(s, actions, s');
    IdleRank(s.threads);
  }

  /** Deadlock freedom: unless a panic ended the run, an unfinished call always
      leaves some unfinished call a step. */
  lemma DeadlockFree(s: State, t: nat)
    requires Reachable(s) && s.fault.NoFault? && t < |s.threads| && Busy(s.threads[t])
    ensures CanProceed(s)
  {
    ReachableInv(s);
    NoDeadlock(s, t);
  }

  /** A run without a panic that can go on only by new calls has returned every call
      made, all calls there are if it cannot go on at all, and if anyone closed the
      session the COM thread has released everything and exited. */
  lemma MaximalRunsFinish(s: State)
    requires Reachable(s) && s.fault.NoFault? && forall a: Action | Enabled(s, a) :: a.Start?
    ensures forall t | 0 <= t < |s.threads| :: !Busy(s.threads[t])
    ensures (forall a: Action :: !Enabled(s, a)) ==> forall t | 0 <= t < |s.threads| :: s.threads[t].budget == 0
    ensures s.ctl.once.Fresh? || (s.ctl.closed && Complete(s.world.trace))
  {
    ReachableInv(s);
    StuckMeansDone(s);
    if !s.ctl.once.Fresh? { CompleteWhenGone(s.world.trace); }
  }

  // ------------------------------------------------------------ linearizability

  /** Each call to do either ran its closure, wholly between its call and its
      return and while the session was live, or never ran it, and then only
      because the session had been stopped before. */
  lemma RunOrSkipped(s: State, k: nat)
    requires Reachable(s) && k < |s.log.calls|
    ensures var r := s.log.calls[k];
      && (r.begun.None? || r.skipped.None?)
      && (r.returned.Some? ==>
            || (r.ended.Some? && r.begun.Some? && r.invoked < r.begun.value < r.ended.value < r.returned.value
                && (s.log.stopAt.Some? ==> r.ended.value < s.log.stopAt.value))
            || (r.begun.None? && r.skipped.Some? && s.log.stopAt.Some?
                && s.log.stopAt.value < r.skipped.value < r.returned.value))
  {
    ReachableInv(s);
    assert CallOk(s.log, k);
  }

  /** A closure runs at most once, and closures never overlap. */
  lemma ClosuresAreSerial(s: State, i: nat, j: nat)
    requires Reachable(s) && i < j < |s.log.history|
    requires s.log.history[i].Begin? && s.log.history[j].Begin?
    ensures s.log.history[i].call != s.log.history[j].call
    ensures exists e :: i < e < j && s.log.history[e] == End(s.log.history[i].call)
  {
    ReachableInv(s);
    var p, q := s.log.history[i].call, s.log.history[j].call;
    assert EventOk(s.log, i) && EventOk(s.log, j);
    assert Apart(s.log, p, q) && CallOk(s.log, p) && CallOk(s.log, q);
    assert s.log.history[s.log.calls[p].ended.value] == End(p);
  }

  /** Real-time order: if call j returned before call k was made and both ran,
      then j's closure ended before k's began. */
  lemma RealTimeOrder(s: State, j: nat, k: nat)
    requires Reachable(s) && j < |s.log.calls| && k < |s.log.calls|
    requires var q, r := s.log.calls[j], s.log.calls[k];
      q.returned.Some? && q.returned.value < r.invoked && q.begun.Some? && r.begun.Some?
    ensures s.log.calls[j].ended.Some? && s.log.calls[j].ended.value < s.log.calls[k].begun.value
  {
    ReachableInv(s);
    assert CallOk(s.log, j) && CallOk(s.log, k);
  }

  // ------------------------------------------------------------ teardown

  /** The COM trace of every run is the boot calls, then requests only, then a
      prefix of Terminate, session Release, manager Release; and every call in
      it comes after the calls it depends on. */
  lemma TraceShape(s: State) returns (volumes: seq<string>, requests: seq<ComCall>)
    requires Reachable(s)
    ensures Verdict(s.world.trace).Some?
    ensures Shaped(s.world.trace, volumes, requests, Down(Verdict(s.world.trace).value.phase))
    ensures !s.ctl.chClosed ==> Down(Verdict(s.world.trace).value.phase) == 0
  {
    ReachableInv(s);
    volumes, requests := AcceptedShape(s.world.trace);
  }

  // ------------------------------------------------------------ processes

  function ReleaseCount(trace: seq<ComCall>, p: nat): nat {
    if trace == [] then 0
    else ReleaseCount(trace[..|trace| - 1], p) + if trace[|trace| - 1] == ReleaseProcess(p) then 1 else 0
  }

  lemma {:induction false} MonitorCounts(trace: seq<ComCall>, p: nat)
    requires Verdict(trace).Some?
    ensures ReleaseCount(trace, p) == if p in Verdict(trace).value.released then 1 else 0
  {
    if trace != [] {
      MonitorCounts(trace[..|trace| - 1], p);
    }
  }

  // Connection c still owes process p a release.
  ghost predicate ConnHolds(s: State, c: nat, p: nat) {
    c < |s.world.conns| && s.world.conns[c].process == Some(p) && Owes(s, c)
  }

  ghost predicate DialHolds(s: State, t: nat, p: nat) {
    t < |s.threads| && Held(s.threads[t]) == Some(p)
  }

  // The call that was to release process p ran its closure, or was skipped.
  ghost predicate ReleaseRan(s: State, p: nat) {
    exists k: nat :: CallReleases(s, k, p) && Settled(s.log.calls[k]) && BeforeStop(s.log, k)
  }

  ghost predicate ReleaseSkipped(s: State, p: nat) {
    exists k: nat :: CallReleases(s, k, p) && Settled(s.log.calls[k]) && !BeforeStop(s.log, k)
  }

  // The call that is to release p, once settled, has settled its fate.
  lemma ReleaserSays(s: State, p: nat, k: nat)
    requires Reachable(s) && p < |s.world.fates| && CallReleases(s, k, p)
    ensures Settled(s.log.calls[k]) <==> Final(s.world.fates[p])
    ensures Settled(s.log.calls[k]) ==> (BeforeStop(s.log, k) <==> s.world.fates[p].Released?)
  {
    ReachableInv(s);
    assert ReleaseOk(s, k);
    if Settled(s.log.calls[k]) { RanExactly(s, k); }
  }

  /** Released or dropped, exactly: at most one do call is ever made to release a
      process; the process is released if and only if that call was settled before
      the session was stopped, and dropped if and only if it was settled after. */
  lemma ReleasedExactly(s: State, p: nat)
    requires Reachable(s) && p < |s.world.fates|
    ensures forall j: nat, k: nat | CallReleases(s, j, p) && CallReleases(s, k, p) :: j == k
    ensures s.world.fates[p].Released? <==> ReleaseRan(s, p)
    ensures s.world.fates[p].Dropped? <==> ReleaseSkipped(s, p)
    ensures ReleaseCount(s.world.trace, p) == if ReleaseRan(s, p) then 1 else 0
  {
    ReachableInv(s);
    MonitorCounts(s.world.trace, p);
    forall j: nat, k: nat | CallReleases(s, j, p) && CallReleases(s, k, p) ensures j == k {
      assert OneRelease(s, j, k);
    }
    assert FinalOk(s, p);
    forall k: nat | CallReleases(s, k, p)
      ensures Settled(s.log.calls[k]) <==> Final(s.world.fates[p])
      ensures Settled(s.log.calls[k]) ==> (BeforeStop(s.log, k) <==> s.world.fates[p].Released?)
    {
      ReleaserSays(s, p, k);
    }
  }

  // The place the reference of process p is in, as its fate says.
  ghost predicate Accounted(s: State, p: nat)
    requires p < |s.world.fates|
  {
    var released := ReleaseCount(s.world.trace, p);
    match s.world.fates[p]
    case Dialing(t) => DialHolds(s, t, p) && released == 0
    case InConn(c) => ConnHolds(s, c, p) && released == 0
    case Released => ReleaseRan(s, p) && released == 1
    case Dropped => ReleaseSkipped(s, p) && released == 0
  }

  /** The processes with a fate are exactly those the COM trace created. */
  lemma FatesOfAllProcesses(s: State, p: nat)
    requires Reachable(s)
    ensures p < |s.world.fates| <==> exists who :: Created(s.world.trace, who, p)
  {
    ReachableInv(s);
    MonitorRemembers(s.world.trace);
    if p < |s.world.fates| {
      assert Created(s.world.trace, Verdict(s.world.trace).value.creator[p], p);
    }
  }

  /** Reference conservation: a process that was created is held by exactly one
      dial in progress or by exactly one connection that has not passed it on, or
      has been released exactly once, by the one call made to release it, or was
      dropped because that call came after the stop; and these exclude each other. */
  lemma ReferencesConserved(s: State, p: nat)
    requires Reachable(s) && p < |s.world.fates|
    ensures Accounted(s, p)
    ensures forall t :: DialHolds(s, t, p) ==> s.world.fates[p] == Dialing(t)
    ensures forall c :: ConnHolds(s, c, p) ==> s.world.fates[p] == InConn(c)
    ensures ReleaseRan(s, p) ==> s.world.fates[p].Released?
    ensures ReleaseSkipped(s, p) ==> s.world.fates[p].Dropped?
  {
    ReachableInv(s);
    MonitorCounts(s.world.trace, p);
    ReleasedExactly(s, p);
    assert FateOk(s, p);
    forall t | DialHolds(s, t, p) ensures s.world.fates[p] == Dialing(t) { assert HolderOk(s, t); }
    forall c | ConnHolds(s, c, p) ensures s.world.fates[p] == InConn(c) { assert OwnerOk(s, c); }
  }

  // ------------------------------------------------------------ connections

  // Some dial or some connection has both handles of process p.
  ghost predicate HandlesKeptBySomeone(s: State, p: nat) {
    (exists t: nat :: DialHasHandles(s, t, p)) || ConnHasHandles(s, p)
  }

  // Whoever has handles got stdout's, so its lookup did not fail.
  lemma KeptMeansLookedUp(s: State, p: nat)
    requires Reachable(s) && HandlesKeptBySomeone(s, p)
    ensures LookedUp(s.world.trace, p)
  {
    ReachableInv(s);
  }

  // A process whose stdout lookup failed never gets it.
  lemma LeftOpenIsNotLookedUp(trace: seq<ComCall>, i: nat)
    requires Verdict(trace).Some? && i < |trace| && trace[i].GetStdHandle? && LeftOpen(trace, i)
    ensures !LookedUp(trace, trace[i].pid)
  {
    var p := trace[i].pid;
    if LookedUp(trace, p) {
      var who :| GetStdHandle(who, p, 0, true) in trace && GetStdHandle(who, p, 1, true) in trace;
      var j :| 0 <= j < |trace| && trace[j] == GetStdHandle(who, p, 1, true);
      if j < i + 1 { LookedUpByOne(trace, j, i + 1); } else if i + 1 < j { LookedUpByOne(trace, i + 1, j); }
    }
  }

  /** Every socket handle the service handed out is in the connection, or with the
      dial, of the one process it belongs to, or it is a stdin handle whose dial's
      next call failed to look up stdout; and that last case is exactly when
      nobody has it: it is left open for good. */
  lemma HandlesAccountedFor(s: State, i: nat)
    requires Reachable(s) && i < |s.world.trace| && s.world.trace[i].GetStdHandle? && s.world.trace[i].ok
    ensures LeftOpen(s.world.trace, i) <==> !HandlesKeptBySomeone(s, s.world.trace[i].pid)
  {
    ReachableInv(s);
    assert HandleOk(s, i);
    var trace, p := s.world.trace, s.world.trace[i].pid;
    if LeftOpen(trace, i) && HandlesKeptBySomeone(s, p) {
      KeptMeansLookedUp(s, p);
      LeftOpenIsNotLookedUp(trace, i);
    }
  }

  /** However many threads call Close and CloseWrite, the operations on one
      connection are a prefix of: shut the write side, close stdin, close stdout,
      ask for the process's release; and a connection whose Close has returned
      has been through all four. */
  lemma ConnTeardownInOrder(s: State, c: nat)
    requires Reachable(s) && c < |s.world.conns|
    ensures s.world.conns[c].ops <= TEARDOWN
    ensures s.world.conns[c].closeOnce.Spent? ==> s.world.conns[c].ops == TEARDOWN
  {
    ReachableInv(s);
    assert ConnOk(s, c);
  }
}
