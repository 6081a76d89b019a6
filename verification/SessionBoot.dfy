/** Session initialisation: the part of the COM thread before its request loop,
    and NewSession around it.  Every foreign call may fail. */
module SessionBoot {
  import opened Prelude
  import opened ComTrace
  import opened Text
  import opened Volumes

  datatype StartError = StorageMissing | InitFailed | NoManager | NoSession | VolumeFailed(index: nat)

  /** The references a trace of calls leaves in the caller's hands; None when a
      call uses or releases an object nobody holds, or releases a session that
      was not terminated. */
  datatype Ledger = Ledger(mgr: nat, sess: nat, terminated: bool)

  function Enter(l: Ledger, e: ComCall): Option<Ledger> {
    match e
    case ActivateManager(ok) => Some(l.(mgr := l.mgr + if ok then 1 else 0))
    case CreateSession(ok) => if l.mgr == 0 then None else Some(l.(sess := l.sess + if ok then 1 else 0))
    case CreateVolume(_, _) => if l.sess == 0 || l.terminated then None else Some(l)
    case RefuseVolume(_) => if l.sess == 0 || l.terminated then None else Some(l)
    case Terminate => if l.sess == 0 || l.terminated then None else Some(l.(terminated := true))
    case ReleaseSession => if l.sess == 0 || !l.terminated then None else Some(l.(sess := l.sess - 1))
    case ReleaseManager => if l.mgr == 0 then None else Some(l.(mgr := l.mgr - 1))
    case _ => Some(l)
  }

  function Balance(trace: seq<ComCall>): Option<Ledger> {
    if trace == [] then Some(Ledger(0, 0, false))
    else
      match Balance(trace[..|trace| - 1])
      case None => None
      case Some(l) => Enter(l, trace[|trace| - 1])
  }

  lemma BalanceSnoc(trace: seq<ComCall>, e: ComCall)
    requires Balance(trace).Some?
    ensures Balance(trace + [e]) == Enter(Balance(trace).value, e)
  {
    assert (trace + [e])[..|trace|] == trace;
  }

  function Names(volumes: seq<VolumeOptions>): (names: seq<string>)
    ensures |names| == |volumes|
    ensures forall i | 0 <= i < |volumes| :: names[i] == volumes[i].name
  {
    seq(|volumes|, i requires 0 <= i < |volumes| => volumes[i].name)
  }

  lemma BootSnoc(names: seq<string>, i: nat)
    requires i < |names|
    ensures BootTrace(names[..i + 1]) == BootTrace(names[..i]) + [CreateVolume(names[i], true)]
  {
    assert names[..i + 1][..i] == names[..i];
  }

  lemma Started()
    ensures Balance([Initialise(true)]) == Some(Ledger(0, 0, false))
  {
    BalanceSnoc([], Initialise(true));
    assert [] + [Initialise(true)] == [Initialise(true)];
  }

  lemma Managed()
    ensures Balance([Initialise(true), ActivateManager(true)]) == Some(Ledger(1, 0, false))
  {
    Started();
    BalanceSnoc([Initialise(true)], ActivateManager(true));
    assert [Initialise(true)] + [ActivateManager(true)] == [Initialise(true), ActivateManager(true)];
  }

  lemma {:induction false} BootBalance(names: seq<string>)
    ensures Balance(BootTrace(names)) == Some(Ledger(1, 1, false))
  {
    if names == [] {
      Managed();
      BalanceSnoc([Initialise(true), ActivateManager(true)], CreateSession(true));
      assert BootTrace([]) == [Initialise(true), ActivateManager(true)] + [CreateSession(true)];
    } else {
      BootBalance(names[..|names| - 1]);
      BalanceSnoc(BootTrace(names[..|names| - 1]), CreateVolume(names[|names| - 1], true));
    }
  }

  // The call that ends the creation of volumes: refused beforehand, or failed.
  function VolumeFailure(v: VolumeOptions): ComCall {
    if Creatable(v) then CreateVolume(v.name, false) else RefuseVolume(v.name)
  }

  // The whole trace of a start that failed.
  function FailureTrace(volumes: seq<VolumeOptions>, err: StartError): seq<ComCall>
    requires err.VolumeFailed? ==> err.index < |volumes|
  {
    match err
    case StorageMissing => []
    case InitFailed => [Initialise(false)]
    case NoManager => [Initialise(true), ActivateManager(false)]
    case NoSession => [Initialise(true), ActivateManager(true), CreateSession(false), ReleaseManager]
    case VolumeFailed(i) => BootTrace(Names(volumes)[..i]) + [VolumeFailure(volumes[i])] + LAST_CALLS
  }

  // A volume is reported as failed only after all the ones before it were created.
  predicate CanFail(volumes: seq<VolumeOptions>, err: StartError) {
    err.VolumeFailed? ==> err.index < |volumes| && forall v | v in volumes[..err.index] :: Creatable(v)
  }

  /** The COM service: what was asked of it, in order.  Each call may fail. */
  class Service {
    var log: seq<ComCall>

    constructor ()
      ensures log == []
    {
      log := [];
    }

    // CoInitializeEx, CoInitializeSecurity, WSAStartup.
    method Init() returns (ok: bool)
      modifies this
      ensures log == old(log) + [Initialise(ok)]
    {
      ok := *;
      log := log + [Initialise(ok)];
    }

    method Activate() returns (ok: bool)
      modifies this
      ensures log == old(log) + [ActivateManager(ok)]
    {
      ok := *;
      log := log + [ActivateManager(ok)];
    }

    method Create() returns (ok: bool)
      modifies this
      ensures log == old(log) + [CreateSession(ok)]
    {
      ok := *;
      log := log + [CreateSession(ok)];
    }

    // comSession.CreateVolume: options the driver cannot take are refused first.
    method Volume(v: VolumeOptions) returns (ok: bool)
      modifies this
      ensures log == old(log) + [if ok then CreateVolume(v.name, true) else VolumeFailure(v)]
      ensures ok ==> Creatable(v)
    {
      if v.name == "" || v.sizeMB == 0 || !Free(v.name, NUL) {
        log := log + [RefuseVolume(v.name)];
        return false;
      }
      ok := *;
      log := log + [CreateVolume(v.name, ok)];
    }

    // The loop over opts.Volumes, up to the first that cannot be created.
    method Volumes(volumes: seq<VolumeOptions>) returns (failed: Option<nat>)
      requires log == BootTrace([])
      modifies this
      ensures failed.None? ==> log == BootTrace(Names(volumes)) && forall v | v in volumes :: Creatable(v)
      ensures failed.Some? ==> CanFail(volumes, VolumeFailed(failed.value))
      ensures failed.Some? ==>
        log == BootTrace(Names(volumes)[..failed.value]) + [VolumeFailure(volumes[failed.value])]
    {
      ghost var names := Names(volumes);
      assert names[..0] == [];
      for i := 0 to |volumes|
        invariant log == BootTrace(names[..i])
        invariant forall v | v in volumes[..i] :: Creatable(v)
      {
        BootSnoc(names, i);
        var ok := Volume(volumes[i]);
        if !ok { return Some(i); }
      }
      assert names[..|volumes|] == names && volumes[..|volumes|] == volumes;
      return None;
    }

    method Call(e: ComCall)
      modifies this
      ensures log == old(log) + [e]
    {
      log := log + [e];
    }

    // Terminate, and the release of both references.
    method GiveBack()
      modifies this
      ensures log == old(log) + LAST_CALLS
    {
      Call(Terminate);
      Call(ReleaseSession);
      Call(ReleaseManager);
    }
  }

  class Session {
    const com: Service
    var mgr: bool       // s.mgr is set
    var sess: bool      // s.sess is set
    var closed: bool    // the closed channel is closed
    var initErr: seq<Option<StartError>>  // what was sent on initErr

    constructor (com: Service)
      ensures this.com == com && !mgr && !sess && !closed && initErr == []
    {
      this.com := com;
      mgr, sess, closed, initErr := false, false, false, [];
    }

    method Fail(err: StartError)
      modifies this
      ensures closed && initErr == old(initErr) + [Some(err)] && mgr == old(mgr) && sess == old(sess)
    {
      initErr := initErr + [Some(err)];
      closed := true;
    }

    /** All or nothing, for every volume list and every pattern of failures.
        Success: exactly one manager and one session, and every volume created
        in list order.  Failure: the calls FailureTrace says and no other, and
        the error delivered once with `closed` closed. */
    method ComThreadStart(volumes: seq<VolumeOptions>)
      requires !closed && initErr == [] && !mgr && !sess && com.log == []
      modifies this, com
      ensures |initErr| == 1 && initErr[0] != Some(StorageMissing)
      ensures initErr[0].None? ==>
        && mgr && sess && !closed
        && com.log == BootTrace(Names(volumes))
        && (forall v | v in volumes :: Creatable(v))
      ensures initErr[0].Some? ==>
        && !mgr && !sess && closed
        && CanFail(volumes, initErr[0].value) && com.log == FailureTrace(volumes, initErr[0].value)
    {
      var ready := com.Init();
      if !ready {
        Fail(InitFailed);
        return;
      }
      var gotMgr := com.Activate();
      if !gotMgr {
        assert com.log == FailureTrace(volumes, NoManager);
        Fail(NoManager);
        return;
      }
      var gotSess := com.Create();
      if !gotSess {
        com.Call(ReleaseManager);
        assert com.log == FailureTrace(volumes, NoSession);
        Fail(NoSession);
        return;
      }
      var failed := com.Volumes(volumes);
      if failed.Some? {
        com.GiveBack();
        Fail(VolumeFailed(failed.value));
        return;
      }
      mgr, sess := true, true;
      initErr := initErr + [None];
    }
  }

  /** Whatever the failure, every reference taken was given back exactly once,
      on live objects only, and a created session was terminated first. */
  lemma FailureGivesBack(volumes: seq<VolumeOptions>, err: StartError)
    requires err.VolumeFailed? ==> err.index < |volumes|
    ensures Balance(FailureTrace(volumes, err)).Some?
    ensures var l := Balance(FailureTrace(volumes, err)).value; l.mgr == l.sess == 0
  {
    match err
    case InitFailed =>
      BalanceSnoc([], Initialise(false));
      assert [] + [Initialise(false)] == [Initialise(false)];
    case NoManager =>
      Started();
      BalanceSnoc([Initialise(true)], ActivateManager(false));
      assert [Initialise(true)] + [ActivateManager(false)] == [Initialise(true), ActivateManager(false)];
    case NoSession => GiveBackManager();
    case VolumeFailed(i) => GiveBackAll(Names(volumes)[..i], VolumeFailure(volumes[i]));
    case _ =>
  }

  lemma GiveBackManager()
    ensures Balance([Initialise(true), ActivateManager(true), CreateSession(false), ReleaseManager])
         == Some(Ledger(0, 0, false))
  {
    Managed();
    BalanceSnoc([Initialise(true), ActivateManager(true)], CreateSession(false));
    BalanceSnoc([Initialise(true), ActivateManager(true), CreateSession(false)], ReleaseManager);
    assert [Initialise(true), ActivateManager(true), CreateSession(false)] + [ReleaseManager]
        == [Initialise(true), ActivateManager(true), CreateSession(false), ReleaseManager];
  }

  lemma GiveBackBoth(t: seq<ComCall>)
    requires Balance(t) == Some(Ledger(1, 1, false))
    ensures Balance(t + LAST_CALLS) == Some(Ledger(0, 0, true))
  {
    BalanceSnoc(t, Terminate);
    BalanceSnoc(t + [Terminate], ReleaseSession);
    BalanceSnoc(t + [Terminate] + [ReleaseSession], ReleaseManager);
    assert t + LAST_CALLS == t + [Terminate] + [ReleaseSession] + [ReleaseManager];
  }

  lemma GiveBackAll(names: seq<string>, e: ComCall)
    requires e.CreateVolume? || e.RefuseVolume?
    ensures Balance(BootTrace(names) + [e] + LAST_CALLS) == Some(Ledger(0, 0, true))
  {
    BootBalance(names);
    BalanceSnoc(BootTrace(names), e);
    GiveBackBoth(BootTrace(names) + [e]);
  }

  /** NewSession: volumes, and only they, need a storage path, or no session is even
      tried; else it returns what the COM thread reported, and a session it returns starts
      its life as the protocol assumes. */
  method NewSession(volumes: seq<VolumeOptions>, storagePath: string, com: Service)
    returns (r: Result<Session, StartError>)
    requires com.log == []
    modifies com
    ensures r == Err(StorageMissing) <==> volumes != [] && storagePath == ""
    ensures r.Ok? ==>
      && r.value.sess && !r.value.closed && com.log == BootTrace(Names(volumes))
      && Verdict(com.log) == Some(Monitor(HasSession, false, [], {}, map[]))
    ensures r.Err? ==>
      && CanFail(volumes, r.error) && com.log == FailureTrace(volumes, r.error)
      && Balance(com.log).Some? && Balance(com.log).value.mgr == Balance(com.log).value.sess == 0
  {
    if volumes != [] && storagePath == "" {
      FailureGivesBack(volumes, StorageMissing);
      return Err(StorageMissing);
    }
    var s := new Session(com);
    s.ComThreadStart(volumes);
    if s.initErr[0].Some? {
      FailureGivesBack(volumes, s.initErr[0].value);
      return Err(s.initErr[0].value);
    }
    BootAccepted(Names(volumes));
    return Ok(s);
  }
}
