/** The COM trace of every run is one the monitor accepts, and the monitor's
    memory agrees with the session's own. */
module SessionTrace {
  import opened Prelude
  import opened ComTrace
  import opened SessionMachine
  import opened SessionLocks
  import opened SessionConns
  import opened SessionProcesses

  predicate PhaseOk(com: ComThread, phase: Phase) {
    match com
    case Receiving => phase.HasSession? || phase.Serving?
    case Running(_) => phase.HasSession? || phase.Serving?
    case Terminating => phase.HasSession? || phase.Serving?
    case DroppingSession => phase.Terminated?
    case DroppingManager => phase.SessionGone?
    case Announcing => phase.ManagerGone?
    case Exited => phase.ManagerGone?
  }

  ghost predicate Agrees(m: Monitor, com: ComThread, mounted: bool, fates: seq<Fate>) {
    && PhaseOk(com, m.phase)
    && m.mounted == mounted
    && |m.creator| == |fates|
    && (forall p | p in m.released :: p < |fates|)
    && (forall p | 0 <= p < |fates| :: p in m.released <==> fates[p].Released?)
  }

  // The lookup a thread's dial has yet to make: of the process it created itself.
  function Expected(th: Thread): Option<Lookup> {
    match th.task
    case Creating(_, _, Some(p), _) => Some(Lookup(p, 0))
    case Handling(Some(p), _, _) => if Resolved(th) then None else Some(Lookup(p, 0))
    case _ => None
  }

  // As long as the session is live, the monitor awaits exactly those lookups.
  ghost predicate DialsAgree(s: State, m: Monitor) {
    !s.ctl.stopped ==> forall t | 0 <= t < |s.threads| :: Awaited(m, t) == Expected(s.threads[t])
  }

  ghost predicate TraceInv(s: State) {
    && Verdict(s.world.trace).Some?
    && Agrees(Verdict(s.world.trace).value, s.ctl.com, s.world.bridgeDone, s.world.fates)
    && DialsAgree(s, Verdict(s.world.trace).value)
  }

  // A step that makes no COM call and concerns neither processes nor lookups.
  ghost predicate Steady(s: State, s': State) {
    && s'.world.trace == s.world.trace && s'.world.bridgeDone == s.world.bridgeDone
    && |s'.world.fates| == |s.world.fates|
    && (forall p | 0 <= p < |s.world.fates| :: s'.world.fates[p].Released? <==> s.world.fates[p].Released?)
    && (forall phase :: PhaseOk(s.ctl.com, phase) ==> PhaseOk(s'.ctl.com, phase))
    && (!s'.ctl.stopped ==>
          && !s.ctl.stopped && |s'.threads| == |s.threads|
          && forall t | 0 <= t < |s.threads| :: Expected(s'.threads[t]) == Expected(s.threads[t]))
  }

  lemma SteadyKeepsTrace(s: State, s': State)
    requires TraceInv(s) && Steady(s, s')
    ensures TraceInv(s')
  {
  }

  // The closure of thread t made the given calls, which took the monitor to m.
  ghost predicate Answered(s: State, s': State, t: nat, m: Monitor) {
    && t < |s.threads| && |s'.threads| == |s.threads| && s'.ctl.stopped == s.ctl.stopped
    && (forall u | 0 <= u < |s.threads| && u != t :: s'.threads[u] == s.threads[u])
    && Verdict(s.world.trace).Some? && Verdict(s'.world.trace) == Some(m)
    && Agrees(m, s'.ctl.com, s'.world.bridgeDone, s'.world.fates)
    && Awaited(m, t) == Expected(s'.threads[t])
    && (forall u: nat | u != t :: Awaited(m, u) == Awaited(Verdict(s.world.trace).value, u))
  }

  lemma AnsweredKeepsTrace(s: State, s': State, t: nat, m: Monitor)
    requires TraceInv(s) && Answered(s, s', t, m)
    ensures TraceInv(s')
  {
  }

  // A closure that releases a process: the monitor had not seen it released.
  lemma ReleaseKeepsTrace(s: State, outcome: Outcome)
    requires LockInv(s) && ConnInv(s) && DialInv(s) && FateInv(s) && TraceInv(s) && Runs(s)
    requires Releases(s, s.ctl.com.who).Some?
    ensures TraceInv(DoFinish(s, outcome))
  {
    var t, m := s.ctl.com.who, Verdict(s.world.trace).value;
    var p := Releases(s, t).value;
    assert ThreadLocks(s, t);
    assert Awaited(m, t) == Expected(s.threads[t]) == None;
    ReleaseSettles(s, outcome);
    SettlingKeepsFates(s, DoFinish(s, outcome), t, Released);
    VerdictSnoc(s.world.trace, ReleaseProcess(p));
    AnsweredKeepsTrace(s, DoFinish(s, outcome), t, m.(phase := Serving, released := m.released + {p}));
  }

  // The creation of a process, or a failed one, as the monitor takes it.
  lemma CreationAccepted(m: Monitor, t: nat, target: string, proc: Option<nat>) returns (m': Monitor)
    requires (m.phase.HasSession? || m.phase.Serving?) && m.mounted && Awaited(m, t).None?
    requires proc.Some? ==> proc.value == |m.creator|
    ensures Watch(m, CreateProcess(t, BridgeDir, target, proc)) == Some(m')
    ensures m'.phase.Serving? && m'.mounted && m'.released == m.released
    ensures |m'.creator| == if proc.Some? then |m.creator| + 1 else |m.creator|
    ensures Awaited(m', t) == if proc.Some? then Some(Lookup(proc.value, 0)) else None
    ensures forall u: nat | u != t :: Awaited(m', u) == Awaited(m, u)
  {
    m' := Watch(m, CreateProcess(t, BridgeDir, target, proc)).value;
  }

  // A closure that asks for a process: the folder is mounted, and the thread has
  // no lookup left to make.
  lemma CreateKeepsTrace(s: State, outcome: Outcome)
    requires LockInv(s) && DialInv(s) && TraceInv(s) && Runs(s)
    requires s.threads[s.ctl.com.who].task.Creating?
    ensures TraceInv(DoFinish(s, outcome))
  {
    var t, m := s.ctl.com.who, Verdict(s.world.trace).value;
    assert ThreadLocks(s, t) && DialOk(s, t);
    assert Awaited(m, t) == Expected(s.threads[t]) == None;
    var target := s.threads[t].task.target;
    var proc := if outcome.FailsFirst? then None else Some(|s.world.fates|);
    var m' := CreationAccepted(m, t, target, proc);
    VerdictSnoc(s.world.trace, CreateProcess(t, BridgeDir, target, proc));
    CreateAnswers(s, outcome, proc);
    AnsweredKeepsTrace(s, DoFinish(s, outcome), t, m');
  }

  // What that closure leaves behind.
  lemma CreateAnswers(s: State, outcome: Outcome, proc: Option<nat>)
    requires Runs(s) && s.threads[s.ctl.com.who].task.Creating?
    requires proc == if outcome.FailsFirst? then None else Some(|s.world.fates|)
    ensures var s', t := DoFinish(s, outcome), s.ctl.com.who;
      && s'.threads == s.threads[t := s'.threads[t]]
      && Expected(s'.threads[t]) == (if proc.Some? then Some(Lookup(proc.value, 0)) else None)
      && s'.ctl == s.ctl.(com := Receiving) && s'.world.bridgeDone == s.world.bridgeDone
      && s'.world.trace ==
         s.world.trace + [CreateProcess(t, s.threads[t].task.dir, s.threads[t].task.target, proc)]
      && s'.world.fates == s.world.fates + (if proc.Some? then [Dialing(t)] else [])
  {
  }

  lemma LookupsAccepted(trace: seq<ComCall>, t: nat, p: nat, made: seq<ComCall>) returns (m: Monitor)
    requires Verdict(trace).Some?
    requires var m0 := Verdict(trace).value;
      && (m0.phase.HasSession? || m0.phase.Serving?) && p !in m0.released && Awaited(m0, t) == Some(Lookup(p, 0))
    requires || made == [GetStdHandle(t, p, 0, false)]
             || made == [GetStdHandle(t, p, 0, true), GetStdHandle(t, p, 1, false)]
             || made == [GetStdHandle(t, p, 0, true), GetStdHandle(t, p, 1, true)]
    ensures Verdict(trace + made) == Some(m)
    ensures m.phase.Serving? && m == Verdict(trace).value.(phase := m.phase, dialing := m.dialing)
    ensures forall u: nat :: Awaited(m, u) == if u == t then None else Awaited(Verdict(trace).value, u)
  {
    VerdictSnoc(trace, made[0]);
    m := Verdict(trace + [made[0]]).value;
    if |made| == 1 {
      assert trace + made == trace + [made[0]];
    } else {
      VerdictSnoc(trace + [made[0]], made[1]);
      assert trace + made == trace + [made[0]] + [made[1]];
      m := Verdict(trace + made).value;
    }
  }

  // What a closure that looks up handles leaves behind.
  lemma HandleAnswers(s: State, outcome: Outcome, p: nat)
    requires Runs(s) && s.threads[s.ctl.com.who].task.Handling? && s.threads[s.ctl.com.who].task.proc == Some(p)
    ensures var s', t := DoFinish(s, outcome), s.ctl.com.who;
      && s'.threads == s.threads[t := s'.threads[t]] && Expected(s'.threads[t]) == None
      && s'.threads[t].task == Handling(Some(p), LookupOk(outcome), !LookupOk(outcome))
      && s'.threads[t].dialled == s.threads[t].dialled
      && s'.ctl == s.ctl.(com := Receiving)
      && s'.world.bridgeDone == s.world.bridgeDone && s'.world.fates == s.world.fates
      && s'.world.trace == s.world.trace + LookupCalls(t, p, outcome)
  {
  }

  predicate LookupOk(outcome: Outcome) {
    !outcome.FailsFirst? && !outcome.FailsSecond?
  }

  function LookupCalls(t: nat, p: nat, outcome: Outcome): seq<ComCall> {
    match outcome
    case FailsFirst => [GetStdHandle(t, p, 0, false)]
    case FailsSecond => [GetStdHandle(t, p, 0, true), GetStdHandle(t, p, 1, false)]
    case _ => [GetStdHandle(t, p, 0, true), GetStdHandle(t, p, 1, true)]
  }

  // A closure that looks up handles: of the process this same dial created.
  lemma HandleKeepsTrace(s: State, outcome: Outcome)
    requires LockInv(s) && DialInv(s) && FateInv(s) && TraceInv(s) && Runs(s)
    requires s.threads[s.ctl.com.who].task.Handling?
    ensures TraceInv(DoFinish(s, outcome))
  {
    var t := s.ctl.com.who;
    assert ThreadLocks(s, t) && DialOk(s, t) && HolderOk(s, t);
    var p := Held(s.threads[t]).value;
    assert Awaited(Verdict(s.world.trace).value, t) == Expected(s.threads[t]);
    HandleAnswers(s, outcome, p);
    var m := LookupsAccepted(s.world.trace, t, p, LookupCalls(t, p, outcome));
    AnsweredKeepsTrace(s, DoFinish(s, outcome), t, m);
  }

  // The mount closure when it asks for no mount, and when it does.
  lemma MountIsSteady(s: State, outcome: Outcome)
    requires Runs(s) && s.threads[s.ctl.com.who].task.Mounting? && (s.world.bridgeDone || outcome.FailsFirst?)
    ensures Steady(s, DoFinish(s, outcome))
  {
    assert s.world.trace + [] == s.world.trace;
  }

  lemma MountAnswers(s: State, outcome: Outcome)
    requires Runs(s) && s.threads[s.ctl.com.who].task.Mounting? && !s.world.bridgeDone && !outcome.FailsFirst?
    ensures var s', t, ok := DoFinish(s, outcome), s.ctl.com.who, !outcome.FailsSecond?;
      && s'.threads == s.threads[t := s'.threads[t]] && s'.threads[t].task.Mounting?
      && s'.ctl == s.ctl.(com := Receiving) && s'.world.bridgeDone == ok && s'.world.fates == s.world.fates
      && s'.world.trace == s.world.trace + [MountFolder(ok)]
  {
  }

  lemma MountKeepsTrace(s: State, outcome: Outcome)
    requires LockInv(s) && TraceInv(s) && Runs(s) && s.threads[s.ctl.com.who].task.Mounting?
    ensures TraceInv(DoFinish(s, outcome))
  {
    var s', t, m := DoFinish(s, outcome), s.ctl.com.who, Verdict(s.world.trace).value;
    if s.world.bridgeDone || outcome.FailsFirst? {
      MountIsSteady(s, outcome);
      SteadyKeepsTrace(s, s');
    } else {
      assert ThreadLocks(s, t);
      assert Awaited(m, t) == Expected(s.threads[t]) == None;
      MountAnswers(s, outcome);
      var ok := !outcome.FailsSecond?;
      VerdictSnoc(s.world.trace, MountFolder(ok));
      AnsweredKeepsTrace(s, s', t, m.(phase := Serving, mounted := ok));
    }
  }

  lemma NameKeepsTrace(s: State, outcome: Outcome)
    requires TraceInv(s) && Runs(s) && s.threads[s.ctl.com.who].task.Naming?
    ensures TraceInv(DoFinish(s, outcome))
  {
    VerdictSnoc(s.world.trace, GetDisplayName);
  }

  lemma FinishKeepsTrace(s: State, outcome: Outcome)
    requires LockInv(s) && ConnInv(s) && DialInv(s) && FateInv(s) && TraceInv(s) && Runs(s)
    ensures TraceInv(DoFinish(s, outcome))
  {
    var t := s.ctl.com.who;
    assert ThreadLocks(s, t) && ThreadConns(s, t);
    match s.threads[t].task
    case Mounting(_, _, _) => MountKeepsTrace(s, outcome);
    case Naming => NameKeepsTrace(s, outcome);
    case Creating(_, _, _, _) => CreateKeepsTrace(s, outcome);
    case Handling(_, _, _) => HandleKeepsTrace(s, outcome);
    case _ => ReleaseKeepsTrace(s, outcome);
  }

  lemma CheckKeepsTrace(s: State, a: Action)
    requires LockInv(s) && ConnInv(s) && DialInv(s) && FateInv(s) && TraceInv(s) && Enabled(s, a) && a.Check?
    ensures TraceInv(Apply(s, a))
  {
    assert ThreadLocks(s, a.t);
    if s.ctl.stopped && Releases(s, a.t).Some? {
      SettlingKeepsFates(s, Apply(s, a), a.t, Dropped);
    }
    SteadyKeepsTrace(s, Apply(s, a));
  }

  lemma DialKeepsTrace(s: State, a: Action)
    requires DialInv(s) && FateInv(s) && TraceInv(s) && Enabled(s, a) && a.DialStep?
    ensures TraceInv(Apply(s, a))
  {
    assert DialOk(s, a.t) && HolderOk(s, a.t);
    SteadyKeepsTrace(s, Apply(s, a));
  }

  // One of the COM thread's last calls.
  lemma TearKeepsTrace(s: State, com: ComThread, e: ComCall)
    requires TraceInv(s)
    requires || (s.ctl.com.Terminating? && com.DroppingSession? && e.Terminate?)
             || (s.ctl.com.DroppingSession? && com.DroppingManager? && e.ReleaseSession?)
             || (s.ctl.com.DroppingManager? && com.Announcing? && e.ReleaseManager?)
    ensures TraceInv(Tear(s, com, e))
  {
    VerdictSnoc(s.world.trace, e);
  }

  lemma TeardownKeepsTrace(s: State, a: Action)
    requires TraceInv(s) && Enabled(s, a) && a.TeardownStep?
    ensures TraceInv(Apply(s, a))
  {
    match s.ctl.com
    case Terminating => TearKeepsTrace(s, DroppingSession, Terminate);
    case DroppingSession => TearKeepsTrace(s, DroppingManager, ReleaseSession);
    case DroppingManager => TearKeepsTrace(s, Announcing, ReleaseManager);
    case _ =>
  }

  lemma StartIsSteady(s: State, a: Action)
    requires Enabled(s, a) && a.Start?
    ensures Steady(s, Apply(s, a))
  {
  }

  lemma ControlIsSteady(s: State, a: Action)
    requires Enabled(s, a) && (a.RLock? || a.Send? || a.RUnlock?)
    ensures Steady(s, Apply(s, a))
  {
  }

  lemma ConnIsSteady(s: State, a: Action)
    requires Enabled(s, a) && a.ConnStep?
    ensures Steady(s, Apply(s, a))
  {
  }

  lemma StopIsSteady(s: State, a: Action)
    requires Enabled(s, a) && a.StopStep?
    ensures Steady(s, Apply(s, a))
  {
  }

  lemma TraceKept(s: State, a: Action)
    requires LockInv(s) && ConnInv(s) && DialInv(s) && FateInv(s) && TraceInv(s) && Enabled(s, a)
    ensures TraceInv(Apply(s, a))
  {
    match a
    case Finish(_) => FinishKeepsTrace(s, a.outcome);
    case Check(_) => CheckKeepsTrace(s, a);
    case DialStep(_) => DialKeepsTrace(s, a);
    case TeardownStep => TeardownKeepsTrace(s, a);
    case Start(_, _) => StartIsSteady(s, a); SteadyKeepsTrace(s, Apply(s, a));
    case ConnStep(_) => ConnIsSteady(s, a); SteadyKeepsTrace(s, Apply(s, a));
    case StopStep(_) => StopIsSteady(s, a); SteadyKeepsTrace(s, Apply(s, a));
    case _ => ControlIsSteady(s, a); SteadyKeepsTrace(s, Apply(s, a));
  }

  // ------------------------------------------------------------ handles

  // Both handles of process p were looked up, successfully, by one thread.
  ghost predicate LookedUp(trace: seq<ComCall>, p: nat) {
    exists who :: GetStdHandle(who, p, 0, true) in trace && GetStdHandle(who, p, 1, true) in trace
  }

  ghost predicate HandlesOk(trace: seq<ComCall>, proc: Option<nat>, handles: bool) {
    handles ==> proc.Some? && LookedUp(trace, proc.value)
  }

  // Handles a dial or a connection says it has were handed out by the service.
  ghost predicate HandleInv(s: State) {
    && (forall t | 0 <= t < |s.threads| && s.threads[t].task.Handling? ::
          HandlesOk(s.world.trace, s.threads[t].task.proc, s.threads[t].task.handles))
    && (forall c | 0 <= c < |s.world.conns| ::
          HandlesOk(s.world.trace, s.world.conns[c].process, s.world.conns[c].live))
  }

  lemma LookedUpGrows(trace: seq<ComCall>, trace': seq<ComCall>, p: nat)
    requires trace <= trace' && LookedUp(trace, p)
    ensures LookedUp(trace', p)
  {
  }

  lemma TraceGrows(s: State, a: Action)
    requires Enabled(s, a)
    ensures s.world.trace <= Apply(s, a).world.trace
  {
  }

  // Every task and connection that was there before, or says it has no handles.
  ghost predicate NoNewHandles(s: State, s': State) {
    && s.world.trace <= s'.world.trace
    && |s'.threads| == |s.threads| && |s.world.conns| <= |s'.world.conns|
    && (forall t | 0 <= t < |s.threads| && s'.threads[t].task.Handling? ::
          !s'.threads[t].task.handles || s'.threads[t].task == s.threads[t].task)
    && (forall c | 0 <= c < |s'.world.conns| ::
          || !s'.world.conns[c].live
          || (c < |s.world.conns| && s'.world.conns[c].process == s.world.conns[c].process
              && s'.world.conns[c].live == s.world.conns[c].live)
          || exists t :: 0 <= t < |s.threads| && s.threads[t].task.Handling? && s.threads[t].task.handles
               && s.threads[t].task.proc == s'.world.conns[c].process)
  }

  lemma NoNewHandlesKeeps(s: State, s': State)
    requires HandleInv(s) && NoNewHandles(s, s')
    ensures HandleInv(s')
  {
    forall p | LookedUp(s.world.trace, p) ensures LookedUp(s'.world.trace, p) {
      LookedUpGrows(s.world.trace, s'.world.trace, p);
    }
  }

  lemma DialHasNoNewHandles(s: State, a: Action)
    requires Enabled(s, a) && a.DialStep?
    ensures NoNewHandles(s, Apply(s, a))
  {
    TraceGrows(s, a);
  }

  lemma ConnHasNoNewHandles(s: State, a: Action)
    requires Enabled(s, a) && a.ConnStep?
    ensures NoNewHandles(s, Apply(s, a))
  {
    TraceGrows(s, a);
  }

  lemma StepHasNoNewHandles(s: State, a: Action)
    requires Enabled(s, a) && !a.Finish? && !a.DialStep? && !a.ConnStep?
    ensures NoNewHandles(s, Apply(s, a))
  {
    TraceGrows(s, a);
  }

  lemma FinishKeepsHandles(s: State, a: Action)
    requires HandleInv(s) && Enabled(s, a) && a.Finish?
    ensures HandleInv(Apply(s, a))
  {
    var s', t := Apply(s, a), s.ctl.com.who;
    TraceGrows(s, a);
    if s'.threads[t].task.Handling? && s'.threads[t].task.handles && s'.threads[t].task != s.threads[t].task {
      var p := s.threads[t].task.proc.value;
      assert s'.world.trace == s.world.trace + [GetStdHandle(t, p, 0, true), GetStdHandle(t, p, 1, true)];
      assert LookedUp(s'.world.trace, p);
    }
    forall p | LookedUp(s.world.trace, p) ensures LookedUp(s'.world.trace, p) {
      LookedUpGrows(s.world.trace, s'.world.trace, p);
    }
  }

  lemma HandlesKept(s: State, a: Action)
    requires HandleInv(s) && Enabled(s, a)
    ensures HandleInv(Apply(s, a))
  {
    if a.Finish? {
      FinishKeepsHandles(s, a);
    } else {
      if a.DialStep? { DialHasNoNewHandles(s, a); }
      else if a.ConnStep? { ConnHasNoNewHandles(s, a); }
      else { StepHasNoNewHandles(s, a); }
      NoNewHandlesKeeps(s, Apply(s, a));
    }
  }

  // Thread t holds process p with both its handles, on its way to a connection.
  ghost predicate DialHasHandles(s: State, t: nat, p: nat) {
    && t < |s.threads| && s.threads[t].task.Handling?
    && s.threads[t].task.proc == Some(p) && s.threads[t].task.handles
  }

  ghost predicate ConnHasHandles(s: State, p: nat) {
    exists c :: 0 <= c < |s.world.conns| && s.world.conns[c].process == Some(p) && s.world.conns[c].live
  }

  // The handle was stdin's, and the very next call failed to look up stdout.
  ghost predicate LeftOpen(trace: seq<ComCall>, i: nat)
    requires i < |trace| && trace[i].GetStdHandle?
  {
    trace[i].fd == 0 && i + 1 < |trace| && trace[i + 1] == GetStdHandle(trace[i].who, trace[i].pid, 1, false)
  }

  // Where the handle the i-th call handed out has gone.
  ghost predicate HandleOk(s: State, i: nat)
    requires i < |s.world.trace|
  {
    var e := s.world.trace[i];
    e.GetStdHandle? && e.ok ==>
      LeftOpen(s.world.trace, i) || DialHasHandles(s, e.who, e.pid) || ConnHasHandles(s, e.pid)
  }

  ghost predicate HandleFateInv(s: State) {
    forall i | 0 <= i < |s.world.trace| :: HandleOk(s, i)
  }

  // Handles in hand stay in hand, or pass to a connection.
  ghost predicate HandlesPass(s: State, s': State) {
    && s.world.trace <= s'.world.trace
    && (forall t, p :: DialHasHandles(s, t, p) ==> DialHasHandles(s', t, p) || ConnHasHandles(s', p))
    && (forall p :: ConnHasHandles(s, p) ==> ConnHasHandles(s', p))
  }

  lemma HandlesPassKeeps(s: State, s': State, i: nat)
    requires HandleFateInv(s) && HandlesPass(s, s') && i < |s.world.trace|
    ensures HandleOk(s', i)
  {
    assert HandleOk(s, i);
  }

  lemma ConnsStay(s: State, a: Action, p: nat)
    requires Enabled(s, a) && ConnHasHandles(s, p)
    ensures ConnHasHandles(Apply(s, a), p)
  {
    var c :| 0 <= c < |s.world.conns| && s.world.conns[c].process == Some(p) && s.world.conns[c].live;
    var conns := Apply(s, a).world.conns;
    assert c < |conns| && conns[c].process == Some(p) && conns[c].live;
  }

  lemma DialsPass(s: State, a: Action, t: nat, p: nat)
    requires LockInv(s) && DialInv(s) && Enabled(s, a) && DialHasHandles(s, t, p)
    ensures DialHasHandles(Apply(s, a), t, p) || ConnHasHandles(Apply(s, a), p)
  {
    assert DialOk(s, t) && ThreadLocks(s, t);
    if a == DialStep(t) {
      var conns := Apply(s, a).world.conns;
      assert conns[|conns| - 1].process == Some(p);
    }
  }

  lemma AllPass(s: State, a: Action)
    requires LockInv(s) && DialInv(s) && Enabled(s, a)
    ensures HandlesPass(s, Apply(s, a))
  {
    TraceGrows(s, a);
    forall p | ConnHasHandles(s, p) ensures ConnHasHandles(Apply(s, a), p) { ConnsStay(s, a, p); }
    forall t, p | DialHasHandles(s, t, p)
      ensures DialHasHandles(Apply(s, a), t, p) || ConnHasHandles(Apply(s, a), p)
    {
      DialsPass(s, a, t, p);
    }
  }

  // The calls one closure adds.
  lemma NewHandlesOk(s: State, outcome: Outcome, i: nat)
    requires LockInv(s) && DialInv(s) && Runs(s) && |s.world.trace| <= i < |DoFinish(s, outcome).world.trace|
    ensures HandleOk(DoFinish(s, outcome), i)
  {
    var t := s.ctl.com.who;
    if !s.threads[t].task.Handling? { AsksForNoHandle(s, t, outcome); }
  }

  lemma AsksForNoHandle(s: State, t: nat, outcome: Outcome)
    requires t < |s.threads| && !s.threads[t].task.Handling?
    ensures forall e | e in Effect(s, t, outcome).made :: !e.GetStdHandle?
  {
  }

  lemma TeardownAsksForNothing(s: State, a: Action, i: nat)
    requires Enabled(s, a) && !a.Finish? && |s.world.trace| <= i < |Apply(s, a).world.trace|
    ensures !Apply(s, a).world.trace[i].GetStdHandle?
  {
  }

  lemma HandleFatesKept(s: State, a: Action)
    requires LockInv(s) && DialInv(s) && HandleFateInv(s) && Enabled(s, a)
    ensures HandleFateInv(Apply(s, a))
  {
    var s' := Apply(s, a);
    AllPass(s, a);
    forall i | 0 <= i < |s'.world.trace| ensures HandleOk(s', i) {
      if i < |s.world.trace| { HandlesPassKeeps(s, s', i); }
      else if a.Finish? { NewHandlesOk(s, a.outcome, i); }
      else { TeardownAsksForNothing(s, a, i); }
    }
  }

  lemma InitHandles(s: State)
    requires Init(s)
    ensures HandleFateInv(s)
  {
    forall i | 0 <= i < |s.world.trace| ensures HandleOk(s, i) {
      MonitorAwaits(s.world.trace);
      var e := s.world.trace[i];
      if e.GetStdHandle? { assert Asked(s.world.trace, e.pid, e.fd); }
    }
  }
}
