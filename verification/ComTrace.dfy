/** The calls a session makes on COM objects, and an independent monitor that
    accepts exactly the traces a well-behaved session may produce. */
module ComTrace {
  import opened Prelude

  // A guest directory as dial knows it: the zero value, or the directory bridge.go
  // mounts the extracted bridge at (/mnt/wslcsession-bridge).  The script a process
  // is created with is entrypoint.sh in that directory.
  datatype GuestDir = NoDir | BridgeDir

  // A start-up of COM and Winsock, and the calls of the interfaces.  A volume can be
  // refused before the service is asked.
  datatype ComCall =
    | Initialise(ok: bool)
    | ActivateManager(ok: bool)
    | CreateSession(ok: bool)
    | CreateVolume(name: string, ok: bool)
    | RefuseVolume(name: string)
    | GetDisplayName
    | MountFolder(ok: bool)
    | CreateProcess(who: nat, dir: GuestDir, target: string, proc: Option<nat>)
    | GetStdHandle(who: nat, pid: nat, fd: nat, ok: bool)
    | ReleaseProcess(pid: nat)
    | Terminate
    | ReleaseSession
    | ReleaseManager
  {
    predicate IsRequest() {
      GetDisplayName? || MountFolder? || CreateProcess? || GetStdHandle? || ReleaseProcess?
    }
  }

  datatype Phase = Nothing | Ready | HasManager | HasSession | Serving | Terminated | SessionGone | ManagerGone

  // The process of a dial in progress, and the handle it has to ask for next.
  datatype Lookup = Lookup(pid: nat, fd: nat)

  /** What the monitor remembers: how far the session's life has come, whether
      the bridge folder is mounted, which thread asked for each process, which
      processes have been released, and which lookups the threads still have to
      make: set by a creation, used up by the lookups or by one that fails. */
  datatype Monitor = Monitor(
    phase: Phase, mounted: bool, creator: seq<nat>, released: set<nat>, dialing: map<nat, Lookup>)

  const START := Monitor(Nothing, false, [], {}, map[])

  /** One step of the monitor; None rejects the call. */
  function Watch(m: Monitor, e: ComCall): Option<Monitor> {
    if e.IsRequest() then
      if m.phase.HasSession? || m.phase.Serving? then WatchRequest(m.(phase := Serving), e) else None
    else match (m.phase, e)
      case (Nothing, Initialise(true)) => Some(m.(phase := Ready))
      case (Ready, ActivateManager(true)) => Some(m.(phase := HasManager))
      case (HasManager, CreateSession(true)) => Some(m.(phase := HasSession))
      case (HasSession, CreateVolume(_, true)) => Some(m)
      case (HasSession, Terminate) => Some(m.(phase := Terminated))
      case (Serving, Terminate) => Some(m.(phase := Terminated))
      case (Terminated, ReleaseSession) => Some(m.(phase := SessionGone))
      case (SessionGone, ReleaseManager) => Some(m.(phase := ManagerGone))
      case _ => None
  }

  // The lookup thread who has to make next.
  function Awaited(m: Monitor, who: nat): Option<Lookup> {
    if who in m.dialing then Some(m.dialing[who]) else None
  }

  function WatchRequest(m: Monitor, e: ComCall): Option<Monitor>
    requires e.IsRequest()
  {
    match e
    case GetDisplayName => Some(m)
    case MountFolder(ok) =>
      if m.mounted then None else Some(m.(mounted := ok))
    case CreateProcess(who, dir, _, proc) =>
      if !m.mounted || dir.NoDir? || who in m.dialing then None
      else if proc.None? then Some(m)
      else if proc.value == |m.creator| then
        Some(m.(creator := m.creator + [who], dialing := m.dialing[who := Lookup(proc.value, 0)]))
      else None
    case GetStdHandle(who, p, fd, ok) =>
      if Awaited(m, who) == Some(Lookup(p, fd)) && p !in m.released then
        Some(m.(dialing := if ok && fd == 0 then m.dialing[who := Lookup(p, 1)] else m.dialing - {who}))
      else None
    case ReleaseProcess(p) =>
      if p < |m.creator| && p !in m.released then Some(m.(released := m.released + {p})) else None
  }

  /** The monitor's verdict on a whole trace. */
  function Verdict(trace: seq<ComCall>): Option<Monitor> {
    if trace == [] then Some(START)
    else
      match Verdict(trace[..|trace| - 1])
      case None => None
      case Some(m) => Watch(m, trace[|trace| - 1])
  }

  lemma VerdictSnoc(trace: seq<ComCall>, e: ComCall)
    requires Verdict(trace).Some?
    ensures Verdict(trace + [e]) == Watch(Verdict(trace).value, e)
  {
    assert (trace + [e])[..|trace|] == trace;
  }

  /** The calls of a successful start: COM, manager, session, every volume in order. */
  function BootTrace(volumes: seq<string>): seq<ComCall> {
    if volumes == [] then [Initialise(true), ActivateManager(true), CreateSession(true)]
    else BootTrace(volumes[..|volumes| - 1]) + [CreateVolume(volumes[|volumes| - 1], true)]
  }

  lemma NoVolumesAccepted()
    ensures Verdict(BootTrace([])) == Some(Monitor(HasSession, false, [], {}, map[]))
  {
    VerdictSnoc([], Initialise(true));
    assert [] + [Initialise(true)] == [Initialise(true)];
    VerdictSnoc([Initialise(true)], ActivateManager(true));
    VerdictSnoc([Initialise(true), ActivateManager(true)], CreateSession(true));
    assert BootTrace([]) == [Initialise(true), ActivateManager(true)] + [CreateSession(true)];
  }

  lemma {:induction false} BootAccepted(volumes: seq<string>)
    ensures Verdict(BootTrace(volumes)) == Some(Monitor(HasSession, false, [], {}, map[]))
  {
    if volumes == [] {
      NoVolumesAccepted();
    } else {
      BootAccepted(volumes[..|volumes| - 1]);
      VerdictSnoc(BootTrace(volumes[..|volumes| - 1]), CreateVolume(volumes[|volumes| - 1], true));
    }
  }

  // ------------------------------------------------------------ what acceptance means

  const LAST_CALLS := [Terminate, ReleaseSession, ReleaseManager]

  // A session has been created.
  predicate Begun(phase: Phase) {
    !phase.Nothing? && !phase.Ready? && !phase.HasManager?
  }

  function Down(phase: Phase): nat {
    match phase
    case Terminated => 1
    case SessionGone => 2
    case ManagerGone => 3
    case _ => 0
  }

  // Session creation, then volumes, then requests, then n of the last calls.
  ghost predicate Shaped(trace: seq<ComCall>, volumes: seq<string>, requests: seq<ComCall>, n: nat) {
    && n <= 3
    && (forall e | e in requests :: e.IsRequest())
    && trace == BootTrace(volumes) + requests + LAST_CALLS[..n]
  }

  /** An accepted trace that got as far as a session is the boot calls, then
      requests only, then a prefix of Terminate, session Release, manager
      Release, with nothing after it. */
  lemma {:induction false} AcceptedShape(trace: seq<ComCall>) returns (volumes: seq<string>, requests: seq<ComCall>)
    requires Verdict(trace).Some? && Begun(Verdict(trace).value.phase)
    ensures Shaped(trace, volumes, requests, Down(Verdict(trace).value.phase))
    ensures Verdict(trace).value.phase.HasSession? ==> requests == []
  {
    var front, e := trace[..|trace| - 1], trace[|trace| - 1];
    var before := Verdict(front).value;
    assert trace == front + [e];
    if before.phase.HasManager? {
      BootFirst(front);
      volumes, requests := [], [];
    } else {
      volumes, requests := AcceptedShape(front);
      volumes, requests := ShapeSnoc(front, e, volumes, requests);
    }
  }

  // One more accepted call extends the shape at its end.
  lemma ShapeSnoc(front: seq<ComCall>, e: ComCall, volumes: seq<string>, requests: seq<ComCall>)
    returns (volumes': seq<string>, requests': seq<ComCall>)
    requires Verdict(front).Some? && Watch(Verdict(front).value, e).Some?
    requires Begun(Verdict(front).value.phase)
    requires Shaped(front, volumes, requests, Down(Verdict(front).value.phase))
    requires Verdict(front).value.phase.HasSession? ==> requests == []
    ensures var m := Watch(Verdict(front).value, e).value;
      Shaped(front + [e], volumes', requests', Down(m.phase)) && (m.phase.HasSession? ==> requests' == [])
  {
    volumes', requests' := volumes, requests;
    if e.IsRequest() {
      requests' := requests + [e];
      assert front + [e] == BootTrace(volumes) + requests' + LAST_CALLS[..0];
    } else if e.CreateVolume? {
      volumes' := volumes + [e.name];
      assert volumes'[..|volumes|] == volumes;
      assert front + [e] == BootTrace(volumes') + [] + LAST_CALLS[..0];
    } else {
      var d := Down(Verdict(front).value.phase);
      assert LAST_CALLS[..d + 1] == LAST_CALLS[..d] + [e];
    }
  }

  lemma BootFirst(trace: seq<ComCall>)
    requires Verdict(trace).Some? && Verdict(trace).value.phase.HasManager?
    ensures trace == [Initialise(true), ActivateManager(true)]
  {
    var front := trace[..|trace| - 1];
    ReadyFirst(front);
  }

  lemma ReadyFirst(trace: seq<ComCall>)
    requires Verdict(trace).Some? && Verdict(trace).value.phase.Ready?
    ensures trace == [Initialise(true)]
  {
    var front := trace[..|trace| - 1];
    if front != [] { NothingIsEmpty(front); }
  }

  lemma NothingIsEmpty(trace: seq<ComCall>)
    requires Verdict(trace).Some? && trace != []
    ensures !Verdict(trace).value.phase.Nothing?
  {
  }

  // What the monitor remembers is what the trace contains.
  ghost predicate Remembers(trace: seq<ComCall>, m: Monitor) {
    && (m.mounted <==> MountFolder(true) in trace)
    && (forall p :: p in m.released <==> ReleaseProcess(p) in trace)
    && (forall p | 0 <= p < |m.creator| :: Created(trace, m.creator[p], p))
    && (forall e | e in trace && e.CreateProcess? && e.proc.Some? :: e.proc.value < |m.creator|)
  }

  lemma CreatedStays(trace: seq<ComCall>, e: ComCall, who: nat, p: nat)
    requires Created(trace, who, p)
    ensures Created(trace + [e], who, p)
  {
    var i :| 0 <= i < |trace| && trace[i].CreateProcess? && trace[i].who == who && trace[i].proc == Some(p);
    assert (trace + [e])[i] == trace[i];
  }

  lemma RemembersSnoc(trace: seq<ComCall>, m: Monitor, e: ComCall)
    requires Remembers(trace, m) && Watch(m, e).Some?
    ensures Remembers(trace + [e], Watch(m, e).value)
  {
    var m' := Watch(m, e).value;
    forall p | 0 <= p < |m'.creator| ensures Created(trace + [e], m'.creator[p], p) {
      if p < |m.creator| { CreatedStays(trace, e, m.creator[p], p); } else { assert (trace + [e])[|trace|] == e; }
    }
  }

  /** What the monitor remembers of a trace is what the trace contains. */
  lemma {:induction false} MonitorRemembers(trace: seq<ComCall>)
    requires Verdict(trace).Some?
    ensures Remembers(trace, Verdict(trace).value)
  {
    if trace != [] {
      var front, e := trace[..|trace| - 1], trace[|trace| - 1];
      MonitorRemembers(front);
      assert trace == front + [e];
      RemembersSnoc(front, Verdict(front).value, e);
    }
  }

  ghost predicate Created(trace: seq<ComCall>, who: nat, p: nat) {
    exists i :: 0 <= i < |trace| && trace[i].CreateProcess? && trace[i].who == who && trace[i].proc == Some(p)
  }

  lemma {:induction false} PrefixAccepted(trace: seq<ComCall>, i: nat)
    requires Verdict(trace).Some? && i < |trace|
    ensures Verdict(trace[..i]).Some? && Watch(Verdict(trace[..i]).value, trace[i]).Some?
    decreases |trace|
  {
    if i < |trace| - 1 {
      var front := trace[..|trace| - 1];
      PrefixAccepted(front, i);
      assert front[..i] == trace[..i];
    }
  }

  // The process thread who created last.
  function LastCreation(trace: seq<ComCall>, who: nat): Option<nat> {
    if trace == [] then None
    else
      var e := trace[|trace| - 1];
      if e.CreateProcess? && e.who == who && e.proc.Some? then e.proc
      else LastCreation(trace[..|trace| - 1], who)
  }

  // Handle fd of process p has been asked for, by anyone.
  ghost predicate Asked(trace: seq<ComCall>, p: nat, fd: nat) {
    exists i :: 0 <= i < |trace| && trace[i].GetStdHandle? && trace[i].pid == p && trace[i].fd == fd
  }

  // What an awaited lookup says about the trace.
  ghost predicate Awaits(trace: seq<ComCall>, who: nat, l: Lookup) {
    && LastCreation(trace, who) == Some(l.pid)
    && l.fd <= 1 && !Asked(trace, l.pid, l.fd) && !Asked(trace, l.pid, 1)
    && (l.fd == 1 ==> GetStdHandle(who, l.pid, 0, true) in trace)
  }

  ghost predicate DialsRemembered(trace: seq<ComCall>, m: Monitor) {
    && (forall who | who in m.dialing :: m.dialing[who].pid < |m.creator| && m.creator[m.dialing[who].pid] == who)
    && (forall who | who in m.dialing :: Awaits(trace, who, m.dialing[who]))
    && (forall p: nat, fd: nat | Asked(trace, p, fd) :: p < |m.creator|)
  }

  lemma AskedSnoc(trace: seq<ComCall>, e: ComCall, p: nat, fd: nat)
    ensures Asked(trace + [e], p, fd) <==> Asked(trace, p, fd) || (e.GetStdHandle? && e.pid == p && e.fd == fd)
  {
    var t := trace + [e];
    assert t[|trace|] == e;
    if Asked(trace, p, fd) {
      var i :| 0 <= i < |trace| && trace[i].GetStdHandle? && trace[i].pid == p && trace[i].fd == fd;
      assert t[i] == trace[i];
    }
  }

  // A call that asks thread who for no lookup of its own, and starts none.
  lemma AwaitsStay(trace: seq<ComCall>, m: Monitor, e: ComCall, who: nat)
    requires DialsRemembered(trace, m) && Watch(m, e).Some?
    requires who in m.dialing && Awaited(Watch(m, e).value, who) == Awaited(m, who)
    ensures Awaits(trace + [e], who, m.dialing[who])
  {
    var l := m.dialing[who];
    assert (trace + [e])[..|trace|] == trace;
    AskedSnoc(trace, e, l.pid, l.fd);
    AskedSnoc(trace, e, l.pid, 1);
  }

  // A creation, or a stdin lookup that goes through.
  lemma AwaitsMove(trace: seq<ComCall>, m: Monitor, e: ComCall, who: nat)
    requires DialsRemembered(trace, m) && Watch(m, e).Some? && who in Watch(m, e).value.dialing
    requires Awaited(Watch(m, e).value, who) != Awaited(m, who)
    ensures Awaits(trace + [e], who, Watch(m, e).value.dialing[who])
  {
    var l := Watch(m, e).value.dialing[who];
    assert (trace + [e])[..|trace|] == trace;
    assert e in trace + [e];
    AskedSnoc(trace, e, l.pid, l.fd);
    AskedSnoc(trace, e, l.pid, 1);
  }

  lemma DialsSnoc(trace: seq<ComCall>, m: Monitor, e: ComCall)
    requires DialsRemembered(trace, m) && Watch(m, e).Some?
    ensures DialsRemembered(trace + [e], Watch(m, e).value)
  {
    var m' := Watch(m, e).value;
    forall who | who in m'.dialing ensures Awaits(trace + [e], who, m'.dialing[who]) {
      if Awaited(m', who) == Awaited(m, who) { AwaitsStay(trace, m, e, who); } else { AwaitsMove(trace, m, e, who); }
    }
    forall p: nat, fd: nat | Asked(trace + [e], p, fd) ensures p < |m'.creator| { AskedSnoc(trace, e, p, fd); }
  }

  lemma {:induction false} MonitorAwaits(trace: seq<ComCall>)
    requires Verdict(trace).Some?
    ensures DialsRemembered(trace, Verdict(trace).value)
  {
    if trace != [] {
      var front, e := trace[..|trace| - 1], trace[|trace| - 1];
      assert trace == front + [e];
      MonitorAwaits(front);
      DialsSnoc(front, Verdict(front).value, e);
    }
  }

  /** Calls that depend on earlier ones: a process is only created by the mounted
      script after a successful mount; a handle is only asked of the process the
      same thread created last, which nobody has released, at most once for each
      of the two handles, and stdout only after stdin was handed out; a process is
      only released after its creation and not twice; nothing is mounted twice. */
  lemma DependentCalls(trace: seq<ComCall>, i: nat)
    requires Verdict(trace).Some? && i < |trace|
    ensures trace[i].CreateProcess? ==>
      MountFolder(true) in trace[..i] && trace[i].dir == BridgeDir
    ensures trace[i].GetStdHandle? ==>
      && LastCreation(trace[..i], trace[i].who) == Some(trace[i].pid)
      && ReleaseProcess(trace[i].pid) !in trace[..i]
      && trace[i].fd <= 1 && !Asked(trace[..i], trace[i].pid, trace[i].fd) && !Asked(trace[..i], trace[i].pid, 1)
      && (trace[i].fd == 1 ==> GetStdHandle(trace[i].who, trace[i].pid, 0, true) in trace[..i])
    ensures trace[i].ReleaseProcess? ==>
      (exists who :: Created(trace[..i], who, trace[i].pid)) && trace[i] !in trace[..i]
    ensures trace[i].MountFolder? ==> MountFolder(true) !in trace[..i]
  {
    PrefixAccepted(trace, i);
    MonitorRemembers(trace[..i]);
    MonitorAwaits(trace[..i]);
    var m := Verdict(trace[..i]).value;
    if trace[i].ReleaseProcess? {
      assert Created(trace[..i], m.creator[trace[i].pid], trace[i].pid);
    }
  }

  lemma AskedOnce(trace: seq<ComCall>, i: nat, j: nat)
    requires Verdict(trace).Some? && i < j < |trace|
    requires trace[i].GetStdHandle? && trace[j].GetStdHandle? && trace[i].pid == trace[j].pid
    ensures trace[i].fd == 0 && trace[j].fd == 1
  {
    DependentCalls(trace, i);
    DependentCalls(trace, j);
    assert trace[..j][i] == trace[i];
    assert Asked(trace[..j], trace[j].pid, trace[i].fd);
  }

  /** No process's handles are looked up by two closures: two lookups of one
      process are made by one thread, stdin first, handed out, then stdout. */
  lemma LookedUpByOne(trace: seq<ComCall>, i: nat, j: nat)
    requires Verdict(trace).Some? && i < j < |trace|
    requires trace[i].GetStdHandle? && trace[j].GetStdHandle? && trace[i].pid == trace[j].pid
    ensures trace[i] == GetStdHandle(trace[j].who, trace[j].pid, 0, true) && trace[j].fd == 1
  {
    AskedOnce(trace, i, j);
    DependentCalls(trace, j);
    var k :| 0 <= k < j && trace[..j][k] == GetStdHandle(trace[j].who, trace[j].pid, 0, true);
    if k < i { AskedOnce(trace, k, i); } else if i < k { AskedOnce(trace, i, k); }
  }
}
