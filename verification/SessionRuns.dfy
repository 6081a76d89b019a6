/** Complete runs of one client, from start to end: a dial that works and whose
    connection is closed; and the three ways a run can end in less than that: a
    panic, a process reference that is dropped, a stdin handle left open. */
module SessionRuns {
  import opened Prelude
  import opened ComTrace
  import opened SessionMachine
  import opened SessionTrace

  ghost predicate Leads(s: State, s': State) {
    exists actions :: Run(s, actions, s')
  }

  lemma LeadsHere(s: State)
    ensures Leads(s, s)
  {
    assert Run(s, [], s);
  }

  lemma {:induction false} RunSnoc(s: State, actions: seq<Action>, s': State, a: Action)
    requires Run(s, actions, s') && Enabled(s', a)
    ensures Run(s, actions + [a], Apply(s', a))
    decreases |actions|
  {
    if actions != [] {
      RunSnoc(Apply(s, actions[0]), actions[1..], s', a);
      assert (actions + [a])[1..] == actions[1..] + [a];
    } else {
      assert Run(s', [a], Apply(s', a));
    }
  }

  lemma LeadsOn(s: State, s': State, a: Action)
    requires Leads(s, s') && Enabled(s', a)
    ensures Leads(s, Apply(s', a))
  {
    var actions :| Run(s, actions, s');
    RunSnoc(s, actions, s', a);
  }

  // The one client of the session, and everything around it.
  predicate Stands(s: State, pc: PC, task: Task, budget: nat, ctl: Control, world: World) {
    && |s.threads| == 1 && s.threads[0].pc == pc && s.threads[0].task == task && s.threads[0].budget == budget
    && s.ctl == ctl && s.world == world && s.fault.NoFault?
  }

  // A session nobody has closed, and one that is closed, with nobody inside do.
  const LIVE := Control({}, Free, false, false, Fresh, false, Receiving)
  const CLOSED := Control({}, Free, true, true, Spent, true, Exited)

  const SETTING := Control({}, Holding(0), false, false, Active(0), false, Receiving)
  const JOINING := Control({}, Free, true, true, Active(0), false, Receiving)
  const TORN := Control({}, Free, true, true, Active(0), true, Exited)

  lemma LeadsReach(s0: State, s: State)
    requires Init(s0) && Leads(s0, s)
    ensures Reachable(s)
  {
  }

  lemma FreshSession(budget: nat) returns (s: State)
    ensures Init(s) && Leads(s, s) && Stands(s, Out, Idle, budget, LIVE, World(false, [], BootTrace([]), []))
  {
    BootAccepted([]);
    s := State([Thread(Out, Idle, budget, 0, None)], LIVE, World(false, [], BootTrace([]), []),
               Log([], [], None), NoFault);
    LeadsHere(s);
  }

  // ------------------------------------------------------------ Session.Close

  lemma LockAlone(s0: State, s: State, budget: nat, world: World) returns (s': State)
    requires Leads(s0, s) && Stands(s, Out, Idle, budget + 1, LIVE, world)
    ensures Leads(s0, s') && Stands(s', Out, StopSet, budget, SETTING, world)
  {
    LeadsOn(s0, s, Start(0, CloseSessionCall)); s' := Apply(s, Start(0, CloseSessionCall));
    LeadsOn(s0, s', StopStep(0)); s' := Apply(s', StopStep(0));
    LeadsOn(s0, s', StopStep(0)); s' := Apply(s', StopStep(0));
    LeadsOn(s0, s', StopStep(0)); s' := Apply(s', StopStep(0));
  }

  lemma StopAlone(s0: State, s: State, budget: nat, world: World) returns (s': State)
    requires Leads(s0, s) && Stands(s, Out, StopSet, budget, SETTING, world)
    ensures Leads(s0, s') && Stands(s', Out, StopJoin, budget, JOINING, world)
  {
    LeadsOn(s0, s, StopStep(0)); s' := Apply(s, StopStep(0));
    LeadsOn(s0, s', StopStep(0)); s' := Apply(s', StopStep(0));
    LeadsOn(s0, s', StopStep(0)); s' := Apply(s', StopStep(0));
  }

  // The world after the COM thread's last calls.
  function Torn(world: World): World {
    world.(trace := world.trace + LAST_CALLS)
  }

  lemma TearAlone(s0: State, s: State, budget: nat, world: World) returns (s': State)
    requires Leads(s0, s) && Stands(s, Out, StopJoin, budget, JOINING, world)
    ensures Leads(s0, s') && Stands(s', Out, StopJoin, budget, TORN, Torn(world))
  {
    LeadsOn(s0, s, TeardownStep); s' := Apply(s, TeardownStep);
    LeadsOn(s0, s', TeardownStep); s' := Apply(s', TeardownStep);
    LeadsOn(s0, s', TeardownStep); s' := Apply(s', TeardownStep);
    LeadsOn(s0, s', TeardownStep); s' := Apply(s', TeardownStep);
    assert s'.world.trace == world.trace + LAST_CALLS;
    LeadsOn(s0, s', TeardownStep); s' := Apply(s', TeardownStep);
  }

  lemma JoinAlone(s0: State, s: State, budget: nat, world: World) returns (s': State)
    requires Leads(s0, s) && Stands(s, Out, StopJoin, budget, TORN, world)
    ensures Leads(s0, s') && Stands(s', Out, Idle, budget, CLOSED, world)
  {
    LeadsOn(s0, s, StopStep(0)); s' := Apply(s, StopStep(0));
    LeadsOn(s0, s', StopStep(0)); s' := Apply(s', StopStep(0));
  }

  lemma CloseSession(s0: State, s: State, budget: nat, world: World) returns (s': State)
    requires Leads(s0, s) && Stands(s, Out, Idle, budget + 1, LIVE, world)
    ensures Leads(s0, s') && Stands(s', Out, Idle, budget, CLOSED, Torn(world))
  {
    s' := LockAlone(s0, s, budget, world);
    s' := StopAlone(s0, s', budget, world);
    s' := TearAlone(s0, s', budget, world);
    s' := JoinAlone(s0, s', budget, Torn(world));
  }

  // ------------------------------------------------------------ Session.do

  // On the closed session a call returns without running its closure.
  lemma SkipAlone(s0: State, s: State, task: Task, budget: nat, world: World) returns (s': State)
    requires Leads(s0, s) && Stands(s, AtRLock, task, budget, CLOSED, world)
    ensures Leads(s0, s') && Stands(s', Out, task, budget, CLOSED, world.(fates := SkippedFates(world, task)))
  {
    LeadsOn(s0, s, RLock(0)); s' := Apply(s, RLock(0));
    LeadsOn(s0, s', Check(0)); s' := Apply(s', Check(0));
    LeadsOn(s0, s', RUnlock(0)); s' := Apply(s', RUnlock(0));
    assert s'.ctl.readers == {};
  }

  lemma HandOver(s0: State, s: State, task: Task, budget: nat, world: World) returns (s': State)
    requires Leads(s0, s) && Stands(s, AtRLock, task, budget, LIVE, world)
    ensures Leads(s0, s') && Stands(s', AtDone, task, budget, LIVE.(readers := {0}, com := Running(0)), world)
  {
    LeadsOn(s0, s, RLock(0)); s' := Apply(s, RLock(0));
    LeadsOn(s0, s', Check(0)); s' := Apply(s', Check(0));
    LeadsOn(s0, s', Send(0)); s' := Apply(s', Send(0));
  }

  // What a closure leaves of the world.
  function Done(e: Effects, world: World): World {
    World(e.bridgeDone, world.conns, world.trace + e.made, e.fates)
  }

  lemma Served(s0: State, s: State, task: Task, budget: nat, world: World, outcome: Outcome) returns (s': State)
    requires Leads(s0, s) && Stands(s, AtDone, task, budget, LIVE.(readers := {0}, com := Running(0)), world)
    requires task.Handling? ==> task.proc.Some?
    ensures var e := Effect(s, 0, outcome);
      Leads(s0, s') && Stands(s', AtRUnlock, e.task, budget, LIVE.(readers := {0}), Done(e, world))
  {
    LeadsOn(s0, s, Finish(outcome)); s' := Apply(s, Finish(outcome));
  }

  lemma Leaves(s0: State, s: State, task: Task, budget: nat, world: World) returns (s': State)
    requires Leads(s0, s) && Stands(s, AtRUnlock, task, budget, LIVE.(readers := {0}), world)
    ensures Leads(s0, s') && Stands(s', Out, task, budget, LIVE, world)
  {
    LeadsOn(s0, s, RUnlock(0)); s' := Apply(s, RUnlock(0));
    assert s'.ctl.readers == {};
  }

  lemma SameEffect(s: State, s': State, outcome: Outcome)
    requires |s.threads| == |s'.threads| == 1 && s.threads[0].task == s'.threads[0].task && s.world == s'.world
    ensures Effect(s, 0, outcome) == Effect(s', 0, outcome)
  {
  }

  // On the live session a call goes through: the closure runs, with its effects.
  lemma DoAlone(s0: State, s: State, task: Task, budget: nat, world: World, outcome: Outcome) returns (s': State)
    requires Leads(s0, s) && Stands(s, AtRLock, task, budget, LIVE, world)
    requires task.Handling? ==> task.proc.Some?
    ensures var e := Effect(s, 0, outcome);
      Leads(s0, s') && Stands(s', Out, e.task, budget, LIVE, Done(e, world))
  {
    var e := Effect(s, 0, outcome);
    s' := HandOver(s0, s, task, budget, world);
    SameEffect(s, s', outcome);
    s' := Served(s0, s', task, budget, world, outcome);
    s' := Leaves(s0, s', e.task, budget, Done(e, world));
  }

  // ------------------------------------------------------------ Session.dial

  // The calls of a first dial that goes well.
  function DialCalls(target: string): seq<ComCall> {
    [MountFolder(true), CreateProcess(0, BridgeDir, target, Some(0)),
     GetStdHandle(0, 0, 0, true), GetStdHandle(0, 0, 1, true)]
  }

  // The calls of a dial that gets stdin's handle and not stdout's.
  function FailingCalls(target: string): seq<ComCall> {
    [MountFolder(true), CreateProcess(0, BridgeDir, target, Some(0)),
     GetStdHandle(0, 0, 0, true), GetStdHandle(0, 0, 1, false), ReleaseProcess(0)]
  }

  lemma MountAlone(s0: State, s: State, target: string, budget: nat, trace: seq<ComCall>) returns (s': State)
    requires Leads(s0, s) && Stands(s, Out, Idle, budget + 1, LIVE, World(false, [], trace, []))
    ensures Leads(s0, s')
    ensures Stands(s', Out, Mounting(target, BridgeDir, false), budget, LIVE,
                   World(true, [], trace + [MountFolder(true)], []))
  {
    LeadsOn(s0, s, Start(0, DialCall(target))); s' := Apply(s, Start(0, DialCall(target)));
    s' := DoAlone(s0, s', Mounting(target, NoDir, false), budget, World(false, [], trace, []), Fine);
  }

  lemma CreateAlone(s0: State, s: State, target: string, budget: nat, trace: seq<ComCall>) returns (s': State)
    requires Leads(s0, s)
    requires Stands(s, Out, Mounting(target, BridgeDir, false), budget, LIVE, World(true, [], trace, []))
    ensures Leads(s0, s')
    ensures Stands(s', Out, Creating(target, BridgeDir, Some(0), false), budget, LIVE,
                   World(true, [], trace + [CreateProcess(0, BridgeDir, target, Some(0))], [Dialing(0)]))
  {
    LeadsOn(s0, s, DialStep(0)); s' := Apply(s, DialStep(0));
    s' := DoAlone(s0, s', Creating(target, BridgeDir, None, false), budget, World(true, [], trace, []), Fine);
  }

  lemma SpawnAlone(s0: State, s: State, target: string, budget: nat, trace: seq<ComCall>) returns (s': State)
    requires Leads(s0, s) && Stands(s, Out, Idle, budget + 1, LIVE, World(false, [], trace, []))
    ensures Leads(s0, s')
    ensures Stands(s', Out, Creating(target, BridgeDir, Some(0), false), budget, LIVE,
                   World(true, [], trace + DialCalls(target)[..2], [Dialing(0)]))
  {
    s' := MountAlone(s0, s, target, budget, trace);
    s' := CreateAlone(s0, s', target, budget, trace + [MountFolder(true)]);
    assert trace + DialCalls(target)[..2] == trace + [MountFolder(true)] + [DialCalls(target)[1]];
  }

  lemma AskHandles(s0: State, s: State, target: string, budget: nat, trace: seq<ComCall>, ok: bool)
    returns (s': State)
    requires Leads(s0, s)
    requires Stands(s, Out, Creating(target, BridgeDir, Some(0), false), budget, LIVE,
                    World(true, [], trace, [Dialing(0)]))
    ensures Leads(s0, s')
    ensures Stands(s', Out, Handling(Some(0), ok, !ok), budget, LIVE,
                   World(true, [], trace + [GetStdHandle(0, 0, 0, true), GetStdHandle(0, 0, 1, ok)], [Dialing(0)]))
  {
    LeadsOn(s0, s, DialStep(0)); s' := Apply(s, DialStep(0));
    s' := DoAlone(s0, s', Handling(Some(0), false, false), budget, World(true, [], trace, [Dialing(0)]),
                  if ok then Fine else FailsSecond);
  }

  lemma GrantConn(s0: State, s: State, budget: nat, trace: seq<ComCall>) returns (s': State)
    requires Leads(s0, s)
    requires Stands(s, Out, Handling(Some(0), true, false), budget, LIVE, World(true, [], trace, [Dialing(0)]))
    ensures Leads(s0, s')
    ensures Stands(s', Out, Idle, budget, LIVE, Connected(trace))
  {
    LeadsOn(s0, s, DialStep(0)); s' := Apply(s, DialStep(0));
  }

  // The world with one whole connection.
  function Connected(trace: seq<ComCall>): World {
    World(true, [Conn(Some(0), true, Fresh, Fresh, [])], trace, [InConn(0)])
  }

  lemma DialLive(s0: State, s: State, target: string, budget: nat, trace: seq<ComCall>) returns (s': State)
    requires Leads(s0, s) && Stands(s, Out, Idle, budget + 1, LIVE, World(false, [], trace, []))
    ensures Leads(s0, s') && Stands(s', Out, Idle, budget, LIVE, Connected(trace + DialCalls(target)))
  {
    s' := SpawnAlone(s0, s, target, budget, trace);
    s' := AskHandles(s0, s', target, budget, trace + DialCalls(target)[..2], true);
    s' := GrantConn(s0, s', budget, trace + DialCalls(target)[..2] + DialCalls(target)[2..]);
    assert trace + DialCalls(target)[..2] + DialCalls(target)[2..] == trace + DialCalls(target);
  }

  // A dial that has to give its process back again.
  lemma Discard(s0: State, s: State, budget: nat, trace: seq<ComCall>) returns (s': State)
    requires Leads(s0, s)
    requires Stands(s, Out, Handling(Some(0), false, true), budget, LIVE, World(true, [], trace, [Dialing(0)]))
    ensures Leads(s0, s')
    ensures Stands(s', Out, Idle, budget, LIVE, World(true, [], trace + [ReleaseProcess(0)], [Released]))
  {
    LeadsOn(s0, s, DialStep(0)); s' := Apply(s, DialStep(0));
    s' := DoAlone(s0, s', Discarding(0), budget, World(true, [], trace, [Dialing(0)]), Fine);
    LeadsOn(s0, s', DialStep(0)); s' := Apply(s', DialStep(0));
  }

  lemma DialFails(s0: State, s: State, target: string, budget: nat, trace: seq<ComCall>) returns (s': State)
    requires Leads(s0, s) && Stands(s, Out, Idle, budget + 1, LIVE, World(false, [], trace, []))
    ensures Leads(s0, s')
    ensures Stands(s', Out, Idle, budget, LIVE, World(true, [], trace + FailingCalls(target), [Released]))
  {
    var calls := FailingCalls(target);
    s' := SpawnAlone(s0, s, target, budget, trace);
    assert DialCalls(target)[..2] == calls[..2];
    s' := AskHandles(s0, s', target, budget, trace + calls[..2], false);
    s' := Discard(s0, s', budget, trace + calls[..2] + calls[2..4]);
    assert trace + calls[..2] + calls[2..4] + [ReleaseProcess(0)] == trace + calls;
  }

  // A dial on the closed session: no closure runs, and no error is reported.
  lemma DialClosed(s0: State, s: State, target: string, budget: nat, world: World) returns (s': State)
    requires Leads(s0, s) && Stands(s, Out, Idle, budget + 1, CLOSED, world)
    ensures Leads(s0, s')
    ensures Stands(s', Out, Idle, budget, CLOSED,
                   world.(conns := world.conns + [Conn(None, false, Fresh, Fresh, [])]))
  {
    LeadsOn(s0, s, Start(0, DialCall(target))); s' := Apply(s, Start(0, DialCall(target)));
    s' := SkipAlone(s0, s', Mounting(target, NoDir, false), budget, world);
    LeadsOn(s0, s', DialStep(0)); s' := Apply(s', DialStep(0));
    s' := SkipAlone(s0, s', Creating(target, NoDir, None, false), budget, world);
    LeadsOn(s0, s', DialStep(0)); s' := Apply(s', DialStep(0));
    s' := SkipAlone(s0, s', Handling(None, false, false), budget, world);
    LeadsOn(s0, s', DialStep(0)); s' := Apply(s', DialStep(0));
  }

  // ------------------------------------------------------------ guestConn.Close

  // The world with its one connection on its way through Close.
  function At(world: World, writeOnce: Once, closeOnce: Once, n: nat): World
    requires |world.conns| == 1 && n <= 4
  {
    world.(conns := [world.conns[0].(writeOnce := writeOnce, closeOnce := closeOnce, ops := TEARDOWN[..n])])
  }

  lemma EnterClose(s0: State, s: State, budget: nat, ctl: Control, w: World) returns (s': State)
    requires |w.conns| == 1 && Leads(s0, s) && Stands(s, Out, Idle, budget + 1, ctl, At(w, Fresh, Fresh, 0))
    ensures Leads(s0, s') && Stands(s', Out, ShutEnter(0, true), budget, ctl, At(w, Fresh, Active(0), 0))
  {
    LeadsOn(s0, s, Start(0, CloseConnCall(0))); s' := Apply(s, Start(0, CloseConnCall(0)));
    LeadsOn(s0, s', ConnStep(0)); s' := Apply(s', ConnStep(0));
  }

  lemma EnterShut(s0: State, s: State, budget: nat, ctl: Control, w: World) returns (s': State)
    requires |w.conns| == 1
    requires Leads(s0, s) && Stands(s, Out, ShutEnter(0, true), budget, ctl, At(w, Fresh, Active(0), 0))
    ensures Leads(s0, s') && Stands(s', Out, ShutDo(0, true), budget, ctl, At(w, Active(0), Active(0), 0))
  {
    LeadsOn(s0, s, ConnStep(0)); s' := Apply(s, ConnStep(0));
  }

  lemma WriteShut(s0: State, s: State, budget: nat, ctl: Control, w: World) returns (s': State)
    requires |w.conns| == 1
    requires Leads(s0, s) && Stands(s, Out, ShutDo(0, true), budget, ctl, At(w, Active(0), Active(0), 0))
    ensures Leads(s0, s') && Stands(s', Out, ShutLeave(0, true), budget, ctl, At(w, Active(0), Active(0), 1))
  {
    LeadsOn(s0, s, ConnStep(0)); s' := Apply(s, ConnStep(0));
    assert s'.world.conns[0].ops == TEARDOWN[..1];
  }

  lemma ShutLeft(s0: State, s: State, budget: nat, ctl: Control, w: World) returns (s': State)
    requires |w.conns| == 1
    requires Leads(s0, s) && Stands(s, Out, ShutLeave(0, true), budget, ctl, At(w, Active(0), Active(0), 1))
    ensures Leads(s0, s') && Stands(s', Out, CloseIn(0), budget, ctl, At(w, Spent, Active(0), 1))
  {
    LeadsOn(s0, s, ConnStep(0)); s' := Apply(s, ConnStep(0));
  }

  lemma InClosed(s0: State, s: State, budget: nat, ctl: Control, w: World) returns (s': State)
    requires |w.conns| == 1
    requires Leads(s0, s) && Stands(s, Out, CloseIn(0), budget, ctl, At(w, Spent, Active(0), 1))
    ensures Leads(s0, s') && Stands(s', Out, CloseOut(0), budget, ctl, At(w, Spent, Active(0), 2))
  {
    LeadsOn(s0, s, ConnStep(0)); s' := Apply(s, ConnStep(0));
    assert s'.world.conns[0].ops == TEARDOWN[..2];
  }

  lemma OutClosed(s0: State, s: State, budget: nat, ctl: Control, w: World) returns (s': State)
    requires |w.conns| == 1
    requires Leads(s0, s) && Stands(s, Out, CloseOut(0), budget, ctl, At(w, Spent, Active(0), 2))
    ensures Leads(s0, s') && Stands(s', Out, CloseEval(0), budget, ctl, At(w, Spent, Active(0), 3))
  {
    LeadsOn(s0, s, ConnStep(0)); s' := Apply(s, ConnStep(0));
    assert s'.world.conns[0].ops == TEARDOWN[..3];
  }

  // Everything of Close up to where the release is evaluated.
  lemma CloseSockets(s0: State, s: State, budget: nat, ctl: Control, w: World) returns (s': State)
    requires |w.conns| == 1 && Leads(s0, s) && Stands(s, Out, Idle, budget + 1, ctl, At(w, Fresh, Fresh, 0))
    ensures Leads(s0, s') && Stands(s', Out, CloseEval(0), budget, ctl, At(w, Spent, Active(0), 3))
  {
    s' := EnterClose(s0, s, budget, ctl, w);
    s' := EnterShut(s0, s', budget, ctl, w);
    s' := WriteShut(s0, s', budget, ctl, w);
    s' := ShutLeft(s0, s', budget, ctl, w);
    s' := InClosed(s0, s', budget, ctl, w);
    s' := OutClosed(s0, s', budget, ctl, w);
  }

  lemma ReleaseAsked(s0: State, s: State, budget: nat, ctl: Control, w: World) returns (s': State)
    requires |w.conns| == 1 && w.conns[0].process.Some?
    requires Leads(s0, s) && Stands(s, Out, CloseEval(0), budget, ctl, At(w, Spent, Active(0), 3))
    ensures Leads(s0, s') && Stands(s', AtRLock, Releasing(0), budget, ctl, At(w, Spent, Active(0), 4))
  {
    LeadsOn(s0, s, ConnStep(0)); s' := Apply(s, ConnStep(0));
    assert s'.world.conns[0].ops == TEARDOWN[..4];
  }

  lemma CloseOver(s0: State, s: State, budget: nat, ctl: Control, w: World) returns (s': State)
    requires |w.conns| == 1
    requires Leads(s0, s) && Stands(s, Out, Releasing(0), budget, ctl, At(w, Spent, Active(0), 4))
    ensures Leads(s0, s') && Stands(s', Out, Idle, budget, ctl, At(w, Spent, Spent, 4))
  {
    LeadsOn(s0, s, ConnStep(0)); s' := Apply(s, ConnStep(0));
  }

  // Whether its closure runs or not, a call to release leaves only fate and trace behind.
  lemma ReleaseLive(s0: State, s: State, budget: nat, w: World) returns (s': State)
    requires |w.conns| == 1 && w.conns[0].process == Some(0) && w.fates == [InConn(0)]
    requires Leads(s0, s) && Stands(s, AtRLock, Releasing(0), budget, LIVE, At(w, Spent, Active(0), 4))
    ensures Leads(s0, s')
    ensures Stands(s', Out, Releasing(0), budget, LIVE,
                   At(w.(trace := w.trace + [ReleaseProcess(0)], fates := [Released]), Spent, Active(0), 4))
  {
    s' := DoAlone(s0, s, Releasing(0), budget, At(w, Spent, Active(0), 4), Fine);
  }

  lemma ReleaseLate(s0: State, s: State, budget: nat, w: World) returns (s': State)
    requires |w.conns| == 1 && w.conns[0].process == Some(0) && w.fates == [InConn(0)]
    requires Leads(s0, s) && Stands(s, AtRLock, Releasing(0), budget, CLOSED, At(w, Spent, Active(0), 4))
    ensures Leads(s0, s')
    ensures Stands(s', Out, Releasing(0), budget, CLOSED, At(w.(fates := [Dropped]), Spent, Active(0), 4))
  {
    s' := SkipAlone(s0, s, Releasing(0), budget, At(w, Spent, Active(0), 4));
  }

  // The world after the connection's Close.
  function Disconnected(trace: seq<ComCall>, fate: Fate): World {
    World(true, [Conn(Some(0), true, Spent, Spent, TEARDOWN)], trace, [fate])
  }

  lemma CloseLive(s0: State, s: State, trace: seq<ComCall>) returns (s': State)
    requires Leads(s0, s) && Stands(s, Out, Idle, 1, LIVE, Connected(trace))
    ensures Leads(s0, s') && Stands(s', Out, Idle, 0, LIVE, Disconnected(trace + [ReleaseProcess(0)], Released))
  {
    var w := Connected(trace);
    assert At(w, Fresh, Fresh, 0) == w;
    s' := CloseSockets(s0, s, 0, LIVE, w);
    s' := ReleaseAsked(s0, s', 0, LIVE, w);
    s' := ReleaseLive(s0, s', 0, w);
    s' := CloseOver(s0, s', 0, LIVE, w.(trace := w.trace + [ReleaseProcess(0)], fates := [Released]));
    assert TEARDOWN[..4] == TEARDOWN;
  }

  lemma CloseLate(s0: State, s: State, trace: seq<ComCall>) returns (s': State)
    requires Leads(s0, s) && Stands(s, Out, Idle, 1, CLOSED, Connected(trace))
    ensures Leads(s0, s') && Stands(s', Out, Idle, 0, CLOSED, Disconnected(trace, Dropped))
  {
    var w := Connected(trace);
    assert At(w, Fresh, Fresh, 0) == w;
    s' := CloseSockets(s0, s, 0, CLOSED, w);
    s' := ReleaseAsked(s0, s', 0, CLOSED, w);
    s' := ReleaseLate(s0, s', 0, w);
    s' := CloseOver(s0, s', 0, CLOSED, w.(fates := [Dropped]));
    assert TEARDOWN[..4] == TEARDOWN;
  }

  // ------------------------------------------------------------ whole runs

  // Only the one client's task is left to state: it has none.
  ghost predicate EndsWith(s: State, world: World) {
    Reachable(s) && s.fault.NoFault? && |s.threads| == 1 && s.threads[0].task.Idle? && s.world == world
  }

  /** One client that dials a fresh session and closes the connection: the folder
      is mounted, one process created, both its handles handed out, the
      connection taken through its whole teardown, and the process released. */
  lemma DialAndCloseWork(target: string) returns (s: State)
    ensures EndsWith(s, Disconnected(BootTrace([]) + DialCalls(target) + [ReleaseProcess(0)], Released))
  {
    var s0 := FreshSession(2);
    s := DialLive(s0, s0, target, 1, BootTrace([]));
    s := CloseLive(s0, s, BootTrace([]) + DialCalls(target));
    LeadsReach(s0, s);
  }

  /** The same client, closing the session before the connection: the process
      reference is dropped, and nothing after the session's end releases it. */
  lemma DropHappens(target: string) returns (s: State)
    ensures EndsWith(s, Disconnected(BootTrace([]) + DialCalls(target) + LAST_CALLS, Dropped))
  {
    var s0 := FreshSession(3);
    s := DialLive(s0, s0, target, 2, BootTrace([]));
    s := CloseSession(s0, s, 1, Connected(BootTrace([]) + DialCalls(target)));
    s := CloseLate(s0, s, BootTrace([]) + DialCalls(target) + LAST_CALLS);
    LeadsReach(s0, s);
  }

  /** A client whose dial cannot look up stdout: the dial fails and releases the
      process, and the stdin handle it had been given is left open. */
  lemma StdinLeftOpen(target: string) returns (s: State, i: nat)
    ensures EndsWith(s, World(true, [], BootTrace([]) + FailingCalls(target), [Released]))
    ensures i < |s.world.trace| && s.world.trace[i] == GetStdHandle(0, 0, 0, true) && LeftOpen(s.world.trace, i)
  {
    var s0 := FreshSession(1);
    s := DialFails(s0, s0, target, 0, BootTrace([]));
    LeadsReach(s0, s);
    i := |BootTrace([])| + 2;
    assert s.world.trace[i] == FailingCalls(target)[2] && s.world.trace[i + 1] == FailingCalls(target)[3];
  }

  /** One client that closes its session, dials, and closes the connection it
      was handed ends in a panic. */
  lemma PanicHappens(target: string) returns (s: State)
    ensures Reachable(s) && s.fault == NilRelease
  {
    var s0 := FreshSession(3);
    var w := World(false, [], BootTrace([]), []);
    s := CloseSession(s0, s0, 2, w);
    s := DialClosed(s0, s, target, 1, Torn(w));
    w := Torn(w).(conns := [Conn(None, false, Fresh, Fresh, [])]);
    assert s.world == w && At(w, Fresh, Fresh, 0) == w;
    s := CloseSockets(s0, s, 0, CLOSED, w);
    LeadsOn(s0, s, ConnStep(0)); s := Apply(s, ConnStep(0));
    LeadsReach(s0, s);
  }
}
