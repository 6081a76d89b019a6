/** The session's threading protocol as a labelled step machine: any number of
    client threads, one COM thread, an unbuffered request channel, an RWMutex
    that prefers writers, and sync.Once guards on the session and on every
    connection.  Every scheduling choice and every outcome of a foreign call is
    part of the action, so a run is a sequence of actions. */
module SessionMachine {
  import opened Prelude
  import opened ComTrace

  // sync.Once: a second caller blocks while the first is still inside.
  datatype Once = Fresh | Active(who: nat) | Spent

  // The writer side of closeMu; a waiting writer already keeps new readers out.
  datatype Writer = Free | Waiting(who: nat) | Holding(who: nat)

  // Where a thread stands inside Session.do.
  datatype PC = Out | AtRLock | AtCheck | AtSend | AtDone | AtRUnlock

  // What a client thread is doing, with the variables its closures capture.
  datatype Task =
    | Idle
    | Naming
    | Mounting(target: string, dir: GuestDir, err: bool)
    | Creating(target: string, dir: GuestDir, proc: Option<nat>, err: bool)
    | Handling(proc: Option<nat>, handles: bool, err: bool)
    | Discarding(pid: nat)
    | ShutEnter(conn: nat, closing: bool)
    | ShutDo(conn: nat, closing: bool)
    | ShutLeave(conn: nat, closing: bool)
    | CloseEnter(conn: nat)
    | CloseIn(conn: nat)
    | CloseOut(conn: nat)
    | CloseEval(conn: nat)
    | Releasing(conn: nat)
    | StopEnter | StopLock | StopWait | StopSet | StopChan | StopUnlock | StopJoin | StopLeave
  {
    // Tasks that wait for a closure handed to do.
    predicate Calls() {
      Naming? || Mounting? || Creating? || Handling? || Discarding? || Releasing?
    }

    // Somewhere in guestConn.CloseWrite or guestConn.Close.
    predicate OnConn() {
      || ShutEnter? || ShutDo? || ShutLeave?
      || CloseEnter? || CloseIn? || CloseOut? || CloseEval? || Releasing?
    }

    // Inside Session.closeOnce.
    predicate Stopping() {
      StopLock? || StopWait? || StopSet? || StopChan? || StopUnlock? || StopJoin? || StopLeave?
    }

    // Inside guestConn.writeCloseOnce of connection c.
    predicate Shutting(c: nat) {
      (ShutDo? || ShutLeave?) && conn == c
    }

    // Inside guestConn.closeOnce of connection c.
    predicate Closing(c: nat) {
      || ((ShutEnter? || ShutDo? || ShutLeave?) && closing && conn == c)
      || ((CloseIn? || CloseOut? || CloseEval? || Releasing?) && conn == c)
    }
  }

  // call is the thread's last call of do, dialled what its last dial returned: a
  // connection, or None for an error.
  datatype Thread = Thread(pc: PC, task: Task, budget: nat, call: nat, dialled: Option<nat>)

  // What a connection does to its two sockets and its process reference.
  datatype SockOp = ShutWrite | CloseStdin | CloseStdout | AskRelease

  const TEARDOWN := [ShutWrite, CloseStdin, CloseStdout, AskRelease]

  datatype Conn = Conn(process: Option<nat>, live: bool, writeOnce: Once, closeOnce: Once, ops: seq<SockOp>)

  datatype ComThread =
    | Receiving | Running(who: nat)
    | Terminating | DroppingSession | DroppingManager | Announcing | Exited

  // Who is responsible for a created process.
  datatype Fate = Dialing(who: nat) | InConn(conn: nat) | Released | Dropped

  // History of do: indices into the history at which each thing happened.
  datatype Event = Invoke(call: nat) | Begin(call: nat) | End(call: nat) | Skip(call: nat) | Return(call: nat) | Stop

  datatype CallRec = CallRec(
    who: nat, closure: Task,
    invoked: nat, begun: Option<nat>, ended: Option<nat>, skipped: Option<nat>, returned: Option<nat>)

  datatype Fault = NoFault | SendOnClosed | CloseOfClosed | NilProcess | NilRelease

  // The locks, flags and channels of the Session struct, and the COM thread's place.
  datatype Control = Control(
    readers: set<nat>, writer: Writer, stopped: bool, chClosed: bool, once: Once, closed: bool, com: ComThread)

  // What closures and connections act on.
  datatype World = World(bridgeDone: bool, conns: seq<Conn>, trace: seq<ComCall>, fates: seq<Fate>)

  // The history of do, kept for stating linearizability.
  datatype Log = Log(calls: seq<CallRec>, history: seq<Event>, stopAt: Option<nat>)

  datatype State = State(threads: seq<Thread>, ctl: Control, world: World, log: Log, fault: Fault)

  datatype Call =
    | NameCall | DialCall(target: string) | CloseWriteCall(conn: nat) | CloseConnCall(conn: nat) | CloseSessionCall

  // What the environment makes of the foreign calls inside one closure.
  datatype Outcome = Fine | AlreadyMounted | FailsFirst | FailsSecond

  datatype Action =
    | Start(t: nat, call: Call)
    | RLock(t: nat)
    | Check(t: nat)
    | Send(t: nat)
    | Finish(outcome: Outcome)
    | RUnlock(t: nat)
    | DialStep(t: nat)
    | ConnStep(t: nat)
    | StopStep(t: nat)
    | TeardownStep

  // ---------------------------------------------------------------- helpers

  // Thread t goes on with another task, outside do.
  function Go(s: State, t: nat, task: Task): seq<Thread>
    requires t < |s.threads|
  {
    s.threads[t := s.threads[t].(task := task)]
  }

  // Thread t stands elsewhere inside do.
  function Move(s: State, t: nat, pc: PC): seq<Thread>
    requires t < |s.threads|
  {
    s.threads[t := s.threads[t].(pc := pc)]
  }

  // Thread t enters Session.do with the closure of the given task.
  function CallDo(s: State, t: nat, task: Task, world: World): State
    requires t < |s.threads|
  {
    var k := |s.log.calls|;
    State(s.threads[t := s.threads[t].(pc := AtRLock, task := task, call := k)], s.ctl, world,
          s.log.(calls := s.log.calls + [CallRec(t, task, |s.log.history|, None, None, None, None)],
                 history := s.log.history + [Invoke(k)]),
          s.fault)
  }

  // Enter an event of call k in the history and in the call's record.
  function Note(log: Log, k: nat, e: Event): Log {
    var now := Some(|log.history|);
    var calls :=
      if k >= |log.calls| then log.calls
      else log.calls[k :=
        match e
        case Begin(_) => log.calls[k].(begun := now)
        case End(_) => log.calls[k].(ended := now)
        case Skip(_) => log.calls[k].(skipped := now)
        case Return(_) => log.calls[k].(returned := now)
        case _ => log.calls[k]];
    log.(calls := calls, history := log.history + [e])
  }

  function SetFate(fates: seq<Fate>, p: nat, f: Fate): seq<Fate> {
    if p < |fates| then fates[p := f] else fates
  }

  function PutConn(w: World, c: nat, conn: Conn): World
    requires c < |w.conns|
  {
    w.(conns := w.conns[c := conn])
  }

  // ---------------------------------------------------------------- guards

  predicate At(s: State, t: nat, pc: PC) {
    t < |s.threads| && s.threads[t].pc == pc
  }

  predicate ConnReady(s: State, task: Task) {
    match task
    case ShutEnter(c, _) => c < |s.world.conns| && !s.world.conns[c].writeOnce.Active?
    case CloseEnter(c) => c < |s.world.conns| && !s.world.conns[c].closeOnce.Active?
    case ShutDo(c, _) => c < |s.world.conns|
    case ShutLeave(c, _) => c < |s.world.conns|
    case CloseIn(c) => c < |s.world.conns|
    case CloseOut(c) => c < |s.world.conns|
    case CloseEval(c) => c < |s.world.conns|
    case Releasing(c) => c < |s.world.conns|
    case _ => false
  }

  predicate StopReady(s: State, task: Task) {
    match task
    case StopEnter => !s.ctl.once.Active?
    case StopLock => s.ctl.writer.Free?
    case StopWait => s.ctl.readers == {}
    case StopSet => true
    case StopChan => true
    case StopUnlock => true
    case StopJoin => s.ctl.closed
    case StopLeave => true
    case _ => false
  }

  predicate Enabled(s: State, a: Action) {
    && s.fault.NoFault?
    && match a
       case Start(t, call) =>
         && At(s, t, Out) && s.threads[t].task.Idle? && s.threads[t].budget > 0
         && ((call.CloseWriteCall? || call.CloseConnCall?) ==> call.conn < |s.world.conns|)
       case RLock(t) => At(s, t, AtRLock) && s.ctl.writer.Free?
       case Check(t) => At(s, t, AtCheck)
       case Send(t) => At(s, t, AtSend) && (s.ctl.chClosed || s.ctl.com.Receiving?)
       case Finish(_) => s.ctl.com.Running? && s.ctl.com.who < |s.threads|
       case RUnlock(t) => At(s, t, AtRUnlock)
       case DialStep(t) =>
         && At(s, t, Out)
         && var task := s.threads[t].task;
            task.Naming? || task.Mounting? || task.Creating? || task.Handling? || task.Discarding?
       case ConnStep(t) => At(s, t, Out) && ConnReady(s, s.threads[t].task)
       case StopStep(t) => At(s, t, Out) && StopReady(s, s.threads[t].task)
       case TeardownStep =>
         || (s.ctl.com.Receiving? && s.ctl.chClosed)
         || s.ctl.com.Terminating? || s.ctl.com.DroppingSession? || s.ctl.com.DroppingManager? || s.ctl.com.Announcing?
  }

  // ---------------------------------------------------------------- steps

  function DoStart(s: State, t: nat, call: Call): State
    requires t < |s.threads| && s.threads[t].budget > 0
  {
    var s := s.(threads := s.threads[t := s.threads[t].(budget := s.threads[t].budget - 1, dialled := None)]);
    match call
    case NameCall => CallDo(s, t, Naming, s.world)
    case DialCall(target) => CallDo(s, t, Mounting(target, NoDir, false), s.world)
    case CloseWriteCall(c) => s.(threads := Go(s, t, ShutEnter(c, false)))
    case CloseConnCall(c) => s.(threads := Go(s, t, CloseEnter(c)))
    case CloseSessionCall => s.(threads := Go(s, t, StopEnter))
  }

  function DoRLock(s: State, t: nat): State
    requires t < |s.threads|
  {
    State(Move(s, t, AtCheck), s.ctl.(readers := s.ctl.readers + {t}), s.world, s.log, s.fault)
  }

  // do returns without running its closure; a reference the closure was going
  // to release is thereby dropped.
  function SkippedFates(w: World, task: Task): seq<Fate> {
    match task
    case Discarding(p) => SetFate(w.fates, p, Dropped)
    case Releasing(c) =>
      if c < |w.conns| && w.conns[c].process.Some? then SetFate(w.fates, w.conns[c].process.value, Dropped)
      else w.fates
    case _ => w.fates
  }

  function DoCheck(s: State, t: nat): State
    requires t < |s.threads|
  {
    var th := s.threads[t];
    if !s.ctl.stopped then s.(threads := Move(s, t, AtSend))
    else State(Move(s, t, AtRUnlock), s.ctl, s.world.(fates := SkippedFates(s.world, th.task)),
               Note(s.log, th.call, Skip(th.call)), s.fault)
  }

  function DoSend(s: State, t: nat): State
    requires t < |s.threads|
  {
    var k := s.threads[t].call;
    if s.ctl.chClosed then s.(fault := SendOnClosed)
    else State(Move(s, t, AtDone), s.ctl.(com := Running(t)), s.world, Note(s.log, k, Begin(k)), s.fault)
  }

  // What a closure leaves behind: its captured variables (in the task), the COM
  // calls it made, and the COM-side variables it changed.
  datatype Effects = Effects(task: Task, made: seq<ComCall>, bridgeDone: bool, fates: seq<Fate>)

  function Effect(s: State, t: nat, outcome: Outcome): (e: Effects)
    requires t < |s.threads|
    ensures s.threads[t].task.Calls() ==> e.task.Calls()
  {
    var task := s.threads[t].task;
    match task
    case Naming => Effects(task, [GetDisplayName], s.world.bridgeDone, s.world.fates)
    case Mounting(target, dir, err) =>
      if s.world.bridgeDone then Effects(Mounting(target, BridgeDir, err), [], true, s.world.fates)
      else (
        match outcome
        case FailsFirst =>  // extracting the bridge failed
          Effects(Mounting(target, dir, true), [], false, s.world.fates)
        case FailsSecond => Effects(Mounting(target, dir, true), [MountFolder(false)], false, s.world.fates)
        case _ =>  // mounted, or the service says it already is
          Effects(Mounting(target, BridgeDir, err), [MountFolder(true)], true, s.world.fates)
      )
    case Creating(target, dir, _, _) =>
      if outcome.FailsFirst? then
        Effects(Creating(target, dir, None, true), [CreateProcess(t, dir, target, None)],
                s.world.bridgeDone, s.world.fates)
      else
        var p := |s.world.fates|;
        Effects(Creating(target, dir, Some(p), false), [CreateProcess(t, dir, target, Some(p))],
                s.world.bridgeDone, s.world.fates + [Dialing(t)])
    case Handling(Some(p), _, _) =>
      (
        match outcome
        case FailsFirst =>
          Effects(Handling(Some(p), false, true), [GetStdHandle(t, p, 0, false)], s.world.bridgeDone, s.world.fates)
        case FailsSecond =>
          Effects(Handling(Some(p), false, true),
                  [GetStdHandle(t, p, 0, true), GetStdHandle(t, p, 1, false)], s.world.bridgeDone, s.world.fates)
        case _ =>
          Effects(Handling(Some(p), true, false),
                  [GetStdHandle(t, p, 0, true), GetStdHandle(t, p, 1, true)], s.world.bridgeDone, s.world.fates)
      )
    case Discarding(p) => Effects(task, [ReleaseProcess(p)], s.world.bridgeDone, SetFate(s.world.fates, p, Released))
    case Releasing(c) =>
      if c < |s.world.conns| && s.world.conns[c].process.Some? then
        var p := s.world.conns[c].process.value;
        Effects(task, [ReleaseProcess(p)], s.world.bridgeDone, SetFate(s.world.fates, p, Released))
      else Effects(task, [], s.world.bridgeDone, s.world.fates)
    case _ => Effects(task, [], s.world.bridgeDone, s.world.fates)
  }

  // The COM thread runs the closure it received and closes its done channel.
  function DoFinish(s: State, outcome: Outcome): State
    requires s.ctl.com.Running? && s.ctl.com.who < |s.threads|
  {
    var t := s.ctl.com.who;
    var th := s.threads[t];
    if th.task.Handling? && th.task.proc.None? then s.(fault := NilProcess)  // GetStdHandle on a nil process
    else
      var e := Effect(s, t, outcome);
      State(s.threads[t := th.(pc := AtRUnlock, task := e.task)],
            s.ctl.(com := Receiving),
            World(e.bridgeDone, s.world.conns, s.world.trace + e.made, e.fates),
            Note(s.log, th.call, End(th.call)), s.fault)
  }

  function DoRUnlock(s: State, t: nat): State
    requires t < |s.threads|
  {
    var k := s.threads[t].call;
    State(Move(s, t, Out), s.ctl.(readers := s.ctl.readers - {t}), s.world, Note(s.log, k, Return(k)), s.fault)
  }

  // What DisplayName and dial do between their closures.
  function DoDial(s: State, t: nat): State
    requires t < |s.threads|
  {
    match s.threads[t].task
    case Mounting(target, dir, err) =>
      if err then s.(threads := Go(s, t, Idle)) else CallDo(s, t, Creating(target, dir, None, false), s.world)
    case Creating(_, _, proc, err) =>
      if err then s.(threads := Go(s, t, Idle)) else CallDo(s, t, Handling(proc, false, false), s.world)
    case Handling(proc, handles, err) =>
      if !err then
        State(s.threads[t := s.threads[t].(task := Idle, dialled := Some(|s.world.conns|))], s.ctl,
              NewConn(s.world, proc, handles), s.log, s.fault)
      else if proc.None? then s.(fault := NilRelease)
      else CallDo(s, t, Discarding(proc.value), s.world)
    case _ => s.(threads := Go(s, t, Idle))
  }

  function NewConn(w: World, proc: Option<nat>, handles: bool): World {
    w.(conns := w.conns + [Conn(proc, handles, Fresh, Fresh, [])],
       fates := if proc.Some? then SetFate(w.fates, proc.value, InConn(|w.conns|)) else w.fates)
  }

  // One step on a connection: where its thread goes next, and what becomes of it.
  function ConnMove(conn: Conn, task: Task, t: nat): (Task, Conn) {
    match task
    case ShutEnter(c, closing) =>
      if conn.writeOnce.Spent? then (if closing then CloseIn(c) else Idle, conn)
      else (ShutDo(c, closing), conn.(writeOnce := Active(t)))
    case ShutDo(c, closing) => (ShutLeave(c, closing), conn.(ops := conn.ops + [ShutWrite]))
    case ShutLeave(c, closing) => (if closing then CloseIn(c) else Idle, conn.(writeOnce := Spent))
    case CloseEnter(c) =>
      if conn.closeOnce.Spent? then (Idle, conn) else (ShutEnter(c, true), conn.(closeOnce := Active(t)))
    case CloseIn(c) => (CloseOut(c), conn.(ops := conn.ops + [CloseStdin]))
    case CloseOut(c) => (CloseEval(c), conn.(ops := conn.ops + [CloseStdout]))
    case CloseEval(c) => (Releasing(c), conn.(ops := conn.ops + [AskRelease]))
    case Releasing(_) => (Idle, conn.(closeOnce := Spent))
    case _ => (task, conn)
  }

  // guestConn.CloseWrite and guestConn.Close.
  function DoConn(s: State, t: nat): State
    requires t < |s.threads| && ConnReady(s, s.threads[t].task)
  {
    var task := s.threads[t].task;
    var c := task.conn;
    var conn := s.world.conns[c];
    var (next, conn') := ConnMove(conn, task, t);
    if task.CloseEval? then
      // process.Release is evaluated before do is entered.
      if conn.process.None? then s.(fault := NilRelease) else CallDo(s, t, next, PutConn(s.world, c, conn'))
    else State(Go(s, t, next), s.ctl, PutConn(s.world, c, conn'), s.log, s.fault)
  }

  // Session.Close.
  function DoStop(s: State, t: nat): State
    requires t < |s.threads| && StopReady(s, s.threads[t].task)
  {
    var task := s.threads[t].task;
    if task.StopChan? && s.ctl.chClosed then s.(fault := CloseOfClosed)
    else
      var (next, ctl) :=
        match task
        case StopEnter =>
          if s.ctl.once.Spent? then (Idle, s.ctl) else (StopLock, s.ctl.(once := Active(t)))
        case StopLock => (StopWait, s.ctl.(writer := Waiting(t)))
        case StopWait => (StopSet, s.ctl.(writer := Holding(t)))
        case StopSet => (StopChan, s.ctl.(stopped := true))
        case StopChan => (StopUnlock, s.ctl.(chClosed := true))
        case StopUnlock => (StopJoin, s.ctl.(writer := Free))
        case StopJoin => (StopLeave, s.ctl)
        case StopLeave => (Idle, s.ctl.(once := Spent));
      var log :=
        if task.StopSet? then s.log.(stopAt := Some(|s.log.history|), history := s.log.history + [Stop])
        else s.log;
      State(Go(s, t, next), ctl, s.world, log, s.fault)
  }

  // The COM thread after its range loop has seen the closed channel.
  function DoTeardown(s: State): State {
    match s.ctl.com
    case Receiving => s.(ctl := s.ctl.(com := Terminating))
    case Terminating => Tear(s, DroppingSession, Terminate)
    case DroppingSession => Tear(s, DroppingManager, ReleaseSession)
    case DroppingManager => Tear(s, Announcing, ReleaseManager)
    case Announcing =>
      if s.ctl.closed then s.(fault := CloseOfClosed)
      else s.(ctl := s.ctl.(com := Exited, closed := true))
    case _ => s
  }

  function Tear(s: State, com: ComThread, e: ComCall): State {
    s.(ctl := s.ctl.(com := com), world := s.world.(trace := s.world.trace + [e]))
  }

  function Apply(s: State, a: Action): State
    requires Enabled(s, a)
  {
    match a
    case Start(t, call) => DoStart(s, t, call)
    case RLock(t) => DoRLock(s, t)
    case Check(t) => DoCheck(s, t)
    case Send(t) => DoSend(s, t)
    case Finish(outcome) => DoFinish(s, outcome)
    case RUnlock(t) => DoRUnlock(s, t)
    case DialStep(t) => DoDial(s, t)
    case ConnStep(t) => DoConn(s, t)
    case StopStep(t) => DoStop(s, t)
    case TeardownStep => DoTeardown(s)
  }

  // ---------------------------------------------------------------- runs

  // A session NewSession has just returned: the COM thread is receiving and
  // its trace is the boot trace; the threads may make finitely many calls.
  predicate Init(s: State) {
    && (forall t | 0 <= t < |s.threads| :: s.threads[t].pc.Out? && s.threads[t].task.Idle?)
    && s.ctl.readers == {} && s.ctl.writer == Free && !s.ctl.stopped && !s.ctl.chClosed && s.ctl.once == Fresh
    && !s.ctl.closed && s.ctl.com == Receiving && !s.world.bridgeDone && s.world.conns == []
    && Verdict(s.world.trace) == Some(Monitor(HasSession, false, [], {}, map[]))
    && s.world.fates == [] && s.log.calls == [] && s.log.history == [] && s.log.stopAt == None && s.fault == NoFault
  }

  ghost predicate Run(s: State, actions: seq<Action>, s': State)
    decreases |actions|
  {
    if actions == [] then s' == s
    else Enabled(s, actions[0]) && Run(Apply(s, actions[0]), actions[1..], s')
  }

  ghost predicate Reachable(s: State) {
    exists s0, actions :: Init(s0) && Run(s0, actions, s)
  }
}
