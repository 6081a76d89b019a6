/** Guest processes across dial, connections and a session that may be closed
    at any moment: who holds each reference, what the COM trace says about it,
    and why the closures of one dial may depend on each other. */
module SessionProcesses {
  import opened Prelude
  import opened ComTrace
  import opened SessionMachine
  import opened SessionLocks
  import opened SessionConns

  // The closure of the thread's current do call has run or been skipped.
  predicate Resolved(th: Thread) {
    th.pc.AtRUnlock? || th.pc.Out?
  }

  // The captured variables of dial, before and after each of its closures.
  ghost predicate DialOk(s: State, t: nat)
    requires t < |s.threads|
  {
    var th := s.threads[t];
    var live := !s.ctl.stopped;
    match th.task
    case Mounting(_, dir, err) =>
      && (!Resolved(th) ==> !err)
      && (Resolved(th) && !err && live ==> s.world.bridgeDone && dir == BridgeDir)
    case Creating(_, dir, proc, err) =>
      && (live ==> s.world.bridgeDone && dir == BridgeDir)
      && (!Resolved(th) ==> !err && proc.None?)
      && (Resolved(th) && !err && live ==> proc.Some?)
      && (err ==> proc.None?)
    case Handling(proc, handles, err) =>
      && (live ==> proc.Some?)
      && (err || handles ==> proc.Some?)
      && !(err && handles)
      && (!Resolved(th) ==> !err && !handles)
      && (Resolved(th) && !err && live ==> handles)
    case _ => true
  }

  ghost predicate DialInv(s: State) {
    && (forall t | 0 <= t < |s.threads| :: DialOk(s, t))
    && (forall c | 0 <= c < |s.world.conns| ::
          (s.world.conns[c].process.None? || !s.world.conns[c].live ==> s.ctl.stopped))
    && !s.fault.NilProcess?
  }

  // The reference a dial in progress is responsible for.
  function Held(th: Thread): Option<nat> {
    match th.task
    case Creating(_, _, proc, _) => proc
    case Handling(proc, _, _) => proc
    case Discarding(p) => if Resolved(th) then None else Some(p)
    case _ => None
  }

  // Connection c has not yet passed its reference on.
  predicate Owes(s: State, c: nat)
    requires c < |s.world.conns|
  {
    match s.world.conns[c].closeOnce
    case Fresh => true
    case Active(t) => t < |s.threads| && !(s.threads[t].task == Releasing(c) && Resolved(s.threads[t]))
    case Spent => false
  }

  ghost predicate FateOk(s: State, p: nat)
    requires p < |s.world.fates|
  {
    match s.world.fates[p]
    case Dialing(t) => t < |s.threads| && Held(s.threads[t]) == Some(p)
    case InConn(c) => c < |s.world.conns| && s.world.conns[c].process == Some(p) && Owes(s, c)
    case Released => true
    case Dropped => s.ctl.stopped
  }

  ghost predicate HolderOk(s: State, t: nat)
    requires t < |s.threads|
  {
    var h := Held(s.threads[t]);
    h.Some? ==> h.value < |s.world.fates| && s.world.fates[h.value] == Dialing(t)
  }

  ghost predicate OwnerOk(s: State, c: nat)
    requires c < |s.world.conns|
  {
    var h := s.world.conns[c].process;
    h.Some? ==>
      && h.value < |s.world.fates|
      && (Owes(s, c) ==> s.world.fates[h.value] == InConn(c))
      && (!Owes(s, c) ==> s.world.fates[h.value].Released? || s.world.fates[h.value].Dropped?)
  }

  ghost predicate FateInv(s: State) {
    && (forall p | 0 <= p < |s.world.fates| :: FateOk(s, p))
    && (forall t | 0 <= t < |s.threads| :: HolderOk(s, t))
    && (forall c | 0 <= c < |s.world.conns| :: OwnerOk(s, c))
  }

  // ------------------------------------------------------------ DialInv

  // Only thread t moves, as its dial may; what is mounted stays mounted, what is
  // stopped stays stopped, and a new connection is whole as long as nothing is.
  ghost predicate DialMoves(s: State, s': State, t: nat) {
    && t < |s.threads| == |s'.threads|
    && (forall u | 0 <= u < |s.threads| && u != t :: s'.threads[u] == s.threads[u])
    && (s.world.bridgeDone ==> s'.world.bridgeDone) && (s.ctl.stopped ==> s'.ctl.stopped)
    && !s'.fault.NilProcess? && DialOk(s', t)
    && (forall c | 0 <= c < |s'.world.conns| ::
          || (c < |s.world.conns| && s'.world.conns[c].process == s.world.conns[c].process
              && s'.world.conns[c].live == s.world.conns[c].live)
          || (s'.world.conns[c].process.Some? && s'.world.conns[c].live) || s'.ctl.stopped)
  }

  lemma DialMoveKeepsDials(s: State, s': State, t: nat)
    requires DialInv(s) && DialMoves(s, s', t)
    ensures DialInv(s')
  {
    forall u | 0 <= u < |s'.threads| ensures DialOk(s', u) { assert DialOk(s, u); }
  }

  lemma StartMovesDial(s: State, a: Action)
    requires DialInv(s) && Enabled(s, a) && a.Start?
    ensures DialMoves(s, Apply(s, a), a.t)
  {
  }

  lemma ControlMovesDial(s: State, a: Action)
    requires LockInv(s) && DialInv(s) && Enabled(s, a) && (a.RLock? || a.Check? || a.Send? || a.RUnlock?)
    ensures DialMoves(s, Apply(s, a), a.t)
  {
    assert DialOk(s, a.t) && ThreadLocks(s, a.t);
  }

  lemma DialStepMovesDial(s: State, a: Action)
    requires DialInv(s) && Enabled(s, a) && a.DialStep?
    ensures DialMoves(s, Apply(s, a), a.t)
  {
    assert DialOk(s, a.t);
  }

  lemma ConnMovesDial(s: State, a: Action)
    requires DialInv(s) && Enabled(s, a) && a.ConnStep?
    ensures DialMoves(s, Apply(s, a), a.t)
  {
  }

  lemma StopMovesDial(s: State, a: Action)
    requires LockInv(s) && DialInv(s) && Enabled(s, a) && a.StopStep?
    ensures DialMoves(s, Apply(s, a), a.t)
  {
    assert ThreadLocks(s, a.t);
  }

  lemma FinishMovesDial(s: State, a: Action)
    requires LockInv(s) && DialInv(s) && Enabled(s, a) && a.Finish?
    ensures DialMoves(s, Apply(s, a), s.ctl.com.who)
  {
    assert ThreadLocks(s, s.ctl.com.who) && DialOk(s, s.ctl.com.who);
  }

  lemma DialsKept(s: State, a: Action)
    requires LockInv(s) && DialInv(s) && Enabled(s, a)
    ensures DialInv(Apply(s, a))
  {
    var s' := Apply(s, a);
    match a
    case Start(t, _) => StartMovesDial(s, a); DialMoveKeepsDials(s, s', t);
    case DialStep(t) => DialStepMovesDial(s, a); DialMoveKeepsDials(s, s', t);
    case ConnStep(t) => ConnMovesDial(s, a); DialMoveKeepsDials(s, s', t);
    case StopStep(t) => StopMovesDial(s, a); DialMoveKeepsDials(s, s', t);
    case Finish(_) => FinishMovesDial(s, a); DialMoveKeepsDials(s, s', s.ctl.com.who);
    case TeardownStep =>
      assert s'.threads == s.threads && s'.world.conns == s.world.conns;
      forall t | 0 <= t < |s'.threads| ensures DialOk(s', t) { assert DialOk(s, t); }
    case _ => ControlMovesDial(s, a); DialMoveKeepsDials(s, s', a.t);
  }

  // ------------------------------------------------------------ FateInv

  // Thread t's step moves no reference: what it holds, and whether its
  // connection still owes one, stay as they were.
  ghost predicate MovesNothing(s: State, s': State, t: nat) {
    && t < |s.threads| && |s'.threads| == |s.threads|
    && (forall u | 0 <= u < |s.threads| && u != t :: s'.threads[u] == s.threads[u])
    && Held(s'.threads[t]) == Held(s.threads[t])
    && s'.world.fates == s.world.fates && |s'.world.conns| == |s.world.conns|
    && (forall c | 0 <= c < |s.world.conns| ::
          s'.world.conns[c].process == s.world.conns[c].process && Owes(s', c) == Owes(s, c))
    && (s.ctl.stopped ==> s'.ctl.stopped)
  }

  lemma MovingNothingKeepsFates(s: State, s': State, t: nat)
    requires FateInv(s) && MovesNothing(s, s', t)
    ensures FateInv(s')
  {
    forall p | 0 <= p < |s'.world.fates| ensures FateOk(s', p) { assert FateOk(s, p); }
    forall u | 0 <= u < |s'.threads| ensures HolderOk(s', u) { assert HolderOk(s, u); }
    forall c | 0 <= c < |s'.world.conns| ensures OwnerOk(s', c) { assert OwnerOk(s, c); }
  }

  // Steps that change no connection and keep a thread on the same side of Resolved.
  ghost predicate StandsStill(s: State, s': State, t: nat) {
    && t < |s.threads| == |s'.threads|
    && (forall u | 0 <= u < |s.threads| && u != t :: s'.threads[u] == s.threads[u])
    && s'.world.conns == s.world.conns && s'.world.fates == s.world.fates
    && (s.ctl.stopped ==> s'.ctl.stopped)
    && Held(s'.threads[t]) == Held(s.threads[t])
    && (s'.threads[t].task.Releasing? || s.threads[t].task.Releasing? ==>
          s'.threads[t].task == s.threads[t].task && Resolved(s'.threads[t]) == Resolved(s.threads[t]))
  }

  lemma StandingMovesNothing(s: State, s': State, t: nat)
    requires ConnInv(s) && StandsStill(s, s', t)
    ensures MovesNothing(s, s', t)
  {
    forall c | 0 <= c < |s.world.conns| ensures Owes(s', c) == Owes(s, c) { assert ConnOk(s, c); }
  }

  lemma StartStandsStill(s: State, a: Action)
    requires Enabled(s, a) && a.Start?
    ensures StandsStill(s, Apply(s, a), a.t)
  {
  }

  lemma CallStandsStill(s: State, a: Action)
    requires Enabled(s, a) && (a.RLock? || a.Send? || a.RUnlock?)
    ensures StandsStill(s, Apply(s, a), a.t)
  {
  }

  lemma StopStandsStill(s: State, a: Action)
    requires LockInv(s) && Enabled(s, a) && a.StopStep?
    ensures StandsStill(s, Apply(s, a), a.t)
  {
  }

  lemma ControlMovesNothing(s: State, a: Action)
    requires LockInv(s) && ConnInv(s) && Enabled(s, a)
    requires a.Start? || a.RLock? || a.Send? || a.RUnlock? || a.StopStep?
    ensures MovesNothing(s, Apply(s, a), a.t)
  {
    if a.Start? { StartStandsStill(s, a); }
    else if a.StopStep? { StopStandsStill(s, a); }
    else { CallStandsStill(s, a); }
    StandingMovesNothing(s, Apply(s, a), a.t);
  }

  // Whether a connection still owes its reference does not change while its
  // thread goes through Close, up to leaving it after the release.
  lemma MoveOwesTheSame(s: State, s': State, t: nat, c: nat)
    requires ConnInv(s) && t < |s.threads| && s.threads[t].pc.Out? && c < |s.world.conns|
    requires ConnReady(s, s.threads[t].task)
    requires var task := s.threads[t].task;
      var (next, conn') := ConnMove(s.world.conns[task.conn], task, t);
      Moves(s, s', t, next, conn') && (next.Releasing? ==> s'.threads[t].pc.AtRLock?)
    ensures Owes(s', c) == Owes(s, c)
  {
    assert ThreadConns(s, t) && ConnOk(s, c);
  }

  lemma ConnMovesNothing(s: State, a: Action)
    requires ConnInv(s) && Enabled(s, a) && a.ConnStep?
    ensures MovesNothing(s, Apply(s, a), a.t)
  {
    var s', task := Apply(s, a), s.threads[a.t].task;
    if task.CloseEval? && s.world.conns[task.conn].process.None? {
      assert s' == s.(fault := NilRelease);
    } else {
      ConnStepMoves(s, a);
      forall c | 0 <= c < |s.world.conns| ensures Owes(s', c) == Owes(s, c) { MoveOwesTheSame(s, s', a.t, c); }
    }
  }

  lemma TeardownKeepsFates(s: State, a: Action)
    requires FateInv(s) && Enabled(s, a) && a.TeardownStep?
    ensures FateInv(Apply(s, a))
  {
    var s' := Apply(s, a);
    assert s'.threads == s.threads && s'.world.fates == s.world.fates && s'.world.conns == s.world.conns;
    forall p | 0 <= p < |s'.world.fates| ensures FateOk(s', p) { assert FateOk(s, p); }
    forall u | 0 <= u < |s'.threads| ensures HolderOk(s', u) { assert HolderOk(s, u); }
    forall c | 0 <= c < |s'.world.conns| ensures OwnerOk(s', c) { assert OwnerOk(s, c); }
  }

  // The reference thread t was to release, by discarding it or for its connection.
  function Releases(s: State, t: nat): Option<nat>
    requires t < |s.threads|
  {
    match s.threads[t].task
    case Discarding(p) => Some(p)
    case Releasing(c) => if c < |s.world.conns| then s.world.conns[c].process else None
    case _ => None
  }

  // Thread t's closure is resolved: the reference it was to release, if any,
  // passes to the given final fate, and nothing else moves.
  ghost predicate Settles(s: State, s': State, t: nat, f: Fate) {
    && t < |s.threads| && |s'.threads| == |s.threads|
    && (forall u | 0 <= u < |s.threads| && u != t :: s'.threads[u] == s.threads[u])
    && s.threads[t].task.Calls() && !Resolved(s.threads[t]) && Resolved(s'.threads[t])
    && s'.world.conns == s.world.conns
    && (s.ctl.stopped ==> s'.ctl.stopped)
    && Releases(s, t).Some? && s'.threads[t].task == s.threads[t].task
    && s'.world.fates == SetFate(s.world.fates, Releases(s, t).value, f)
    && (f.Released? || (f.Dropped? && s.ctl.stopped))
  }

  lemma SettlingKeepsFates(s: State, s': State, t: nat, f: Fate)
    requires ConnInv(s) && FateInv(s) && Settles(s, s', t, f)
    ensures FateInv(s')
    ensures var p := Releases(s, t).value;
      p < |s.world.fates| && !s.world.fates[p].Released? && s'.world.fates == s.world.fates[p := f]
  {
    var p0 := Releases(s, t).value;
    assert HolderOk(s, t) && ThreadConns(s, t);
    if s.threads[t].task.Releasing? { assert OwnerOk(s, s.threads[t].task.conn); }
    assert FateOk(s, p0);
    forall p | 0 <= p < |s'.world.fates| ensures FateOk(s', p) { assert FateOk(s, p); }
    forall u | 0 <= u < |s'.threads| ensures HolderOk(s', u) { assert HolderOk(s, u); }
    forall c | 0 <= c < |s'.world.conns| ensures OwnerOk(s', c) {
      assert OwnerOk(s, c) && ConnOk(s, c);
    }
  }

  lemma CheckKeepsFates(s: State, a: Action)
    requires LockInv(s) && ConnInv(s) && FateInv(s) && Enabled(s, a) && a.Check?
    ensures FateInv(Apply(s, a))
  {
    var s' := Apply(s, a);
    assert ThreadLocks(s, a.t) && ThreadConns(s, a.t);
    if s.ctl.stopped && Releases(s, a.t).Some? {
      SettlingKeepsFates(s, s', a.t, Dropped);
    } else {
      StandingMovesNothing(s, s', a.t);
      MovingNothingKeepsFates(s, s', a.t);
    }
  }

  // The COM thread is running a closure.
  predicate Runs(s: State) {
    s.ctl.com.Running? && s.ctl.com.who < |s.threads|
  }

  // The closure that releases a process ran.
  lemma ReleaseSettles(s: State, outcome: Outcome)
    requires LockInv(s) && ConnInv(s) && Runs(s) && Releases(s, s.ctl.com.who).Some?
    ensures var s', t := DoFinish(s, outcome), s.ctl.com.who;
      && Settles(s, s', t, Released)
      && s'.world.trace == s.world.trace + [ReleaseProcess(Releases(s, t).value)]
      && s'.world.bridgeDone == s.world.bridgeDone && s'.ctl == s.ctl.(com := Receiving)
  {
    assert ThreadLocks(s, s.ctl.com.who);
  }

  // A closure of dial creates a process: the dial holds it from then on.
  lemma CreationKeepsFates(s: State, a: Action)
    requires LockInv(s) && ConnInv(s) && DialInv(s) && FateInv(s) && Enabled(s, a) && a.Finish?
    requires s.threads[s.ctl.com.who].task.Creating? && !a.outcome.FailsFirst?
    ensures FateInv(Apply(s, a))
  {
    var s', t := Apply(s, a), s.ctl.com.who;
    assert ThreadLocks(s, t) && DialOk(s, t);
    forall p | 0 <= p < |s'.world.fates| ensures FateOk(s', p) {
      if p < |s.world.fates| { assert FateOk(s, p); }
    }
    forall u | 0 <= u < |s'.threads| ensures HolderOk(s', u) { assert HolderOk(s, u); }
    forall c | 0 <= c < |s'.world.conns| ensures OwnerOk(s', c) { assert OwnerOk(s, c) && ConnOk(s, c); }
  }

  lemma FinishKeepsFates(s: State, a: Action)
    requires LockInv(s) && ConnInv(s) && DialInv(s) && FateInv(s) && Enabled(s, a) && a.Finish?
    ensures FateInv(Apply(s, a))
  {
    var s', t := Apply(s, a), s.ctl.com.who;
    assert ThreadLocks(s, t) && DialOk(s, t) && ThreadConns(s, t);
    if s.threads[t].task.Creating? && !a.outcome.FailsFirst? {
      CreationKeepsFates(s, a);
    } else if Releases(s, t).Some? {
      ReleaseSettles(s, a.outcome);
      SettlingKeepsFates(s, s', t, Released);
    } else {
      StandingMovesNothing(s, s', t);
      MovingNothingKeepsFates(s, s', t);
    }
  }

  // Dial hands its reference to the connection it returns.
  lemma NewConnKeepsFates(s: State, s': State, t: nat, proc: Option<nat>, handles: bool)
    requires ConnInv(s) && FateInv(s) && t < |s.threads| == |s'.threads| && Held(s.threads[t]) == proc
    requires s'.threads == s.threads[t := s'.threads[t]] && s'.threads[t].task.Idle?
    requires !s.threads[t].task.Releasing? && s'.world == NewConn(s.world, proc, handles) && s'.ctl == s.ctl
    ensures FateInv(s')
  {
    assert HolderOk(s, t);
    forall p | 0 <= p < |s'.world.fates| ensures FateOk(s', p) {
      assert FateOk(s, p);
      if s.world.fates[p].InConn? { assert ConnOk(s, s.world.fates[p].conn); }
    }
    forall u | 0 <= u < |s'.threads| ensures HolderOk(s', u) { assert HolderOk(s, u); }
    forall c | 0 <= c < |s'.world.conns| ensures OwnerOk(s', c) {
      if c < |s.world.conns| { assert OwnerOk(s, c) && ConnOk(s, c); }
    }
  }

  lemma DialKeepsFates(s: State, a: Action)
    requires LockInv(s) && ConnInv(s) && DialInv(s) && FateInv(s) && Enabled(s, a) && a.DialStep?
    ensures FateInv(Apply(s, a))
  {
    var s', t := Apply(s, a), a.t;
    assert DialOk(s, t) && HolderOk(s, t);
    var task := s.threads[t].task;
    if task.Handling? && !task.err {
      NewConnKeepsFates(s, s', t, task.proc, task.handles);
    } else {
      StandingMovesNothing(s, s', t);
      MovingNothingKeepsFates(s, s', t);
    }
  }

  lemma FatesKept(s: State, a: Action)
    requires LockInv(s) && ConnInv(s) && DialInv(s) && FateInv(s) && Enabled(s, a)
    ensures FateInv(Apply(s, a))
  {
    match a
    case Check(_) => CheckKeepsFates(s, a);
    case Finish(_) => FinishKeepsFates(s, a);
    case DialStep(_) => DialKeepsFates(s, a);
    case ConnStep(_) => ConnMovesNothing(s, a); MovingNothingKeepsFates(s, Apply(s, a), a.t);
    case TeardownStep => TeardownKeepsFates(s, a);
    case _ => ControlMovesNothing(s, a); MovingNothingKeepsFates(s, Apply(s, a), a.t);
  }
}
