/** What goes wrong in a run of the relay, and exactly what comes of it: a
    direction loses bytes on the way exactly when a write of its copier failed or
    the bridge died with it open, and otherwise delivers everything exactly when
    no read failed with something still to come. */
module RelayMishaps {
  import opened Prelude
  import opened Streams
  import BridgeSpec
  import CopierSpec
  import opened Relay
  import opened RelayTheorems

  datatype Mishap =
    | FailedRead  // a read in the direction fails and is taken for the end of file
    | Cut         // the same, with something still to come
    | Loss        // a copier's write fails, or the bridge dies while the direction is open

  // The two hops of a direction: copier and bridge, or bridge and copier.
  predicate AtFirst(a: Action, forward: bool) {
    if forward then a.UpDo? else a.BridgeDo? && IsHop(a.e) && a.e.dir != 0
  }

  predicate AtSecond(a: Action, forward: bool) {
    if forward then a.BridgeDo? && IsHop(a.e) && a.e.dir == 0 else a.DownDo?
  }

  function FirstPending(s: System, forward: bool): seq<byte> {
    if forward then CopierPending(s.up) else BridgeSpec.Pending(s.bridge, 1)
  }

  // Something of what the sender sends has not reached the first hop, or the second.
  predicate MoreForFirst(s: System, forward: bool) {
    var p := Way(s, forward);
    p.p0.taken < |p.p0.all| || p.script != []
  }

  predicate MoreForSecond(s: System, forward: bool) {
    var p := Way(s, forward);
    p.p1.taken < |p.p1.all| || FirstPending(s, forward) != [] || MoreForFirst(s, forward)
  }

  predicate ReadFails(a: Action, forward: bool) {
    (AtFirst(a, forward) || AtSecond(a, forward)) && a.e.Ended? && a.fault
  }

  // Mishap m happens to the direction when a is done in s.
  predicate Happens(s: System, a: Action, m: Mishap, forward: bool) {
    match m
    case FailedRead => ReadFails(a, forward)
    case Cut =>
      && ReadFails(a, forward)
      && (if AtFirst(a, forward) then MoreForFirst(s, forward) else MoreForSecond(s, forward))
    case Loss =>
      || (if forward then a.UpDo? && a.e.PutFailed? else a.DownDo? && a.e.PutFailed?)
      || (a.BridgeDo? && (a.e.PollFailed? || a.e.PutFailed?)
          && (if forward then s.bridge.open0 else s.bridge.open1))
  }

  // It happens at some step of the run.
  ghost predicate Ever(s: System, actions: seq<Action>, m: Mishap, forward: bool)
    decreases |actions|
  {
    && actions != [] && Enabled(s, actions[0])
    && (Happens(s, actions[0], m, forward) || Ever(Apply(s, actions[0]), actions[1..], m, forward))
  }

  // ------------------------------------------------------------ losses and failed reads

  lemma BridgeKeptStep(s: System, a: Action, forward: bool)
    requires Good(s) && Enabled(s, a) && a.BridgeDo?
    ensures Kept(Apply(s, a), forward) <==> Kept(s, forward) && !Happens(s, a, Loss, forward)
  {
    if IsHop(a.e) { WritesOpen(s.bridge, a.e); }
  }

  lemma KeptStep(s: System, a: Action, forward: bool)
    requires Good(s) && Enabled(s, a)
    ensures Kept(Apply(s, a), forward) <==> Kept(s, forward) && !Happens(s, a, Loss, forward)
  {
    if a.BridgeDo? { BridgeKeptStep(s, a, forward); }
  }

  lemma CutStep(s: System, a: Action, forward: bool)
    requires Good(s) && Enabled(s, a)
    ensures FaultsOf(Apply(s, a), forward).cut <==> FaultsOf(s, forward).cut || Happens(s, a, FailedRead, forward)
  {
    if a.BridgeDo? && IsHop(a.e) { WritesOpen(s.bridge, a.e); }
  }

  lemma {:induction false} FlagsExactly(s: System, actions: seq<Action>, s': System, forward: bool)
    requires Good(s) && Run(s, actions, s')
    ensures Kept(s', forward) <==> Kept(s, forward) && !Ever(s, actions, Loss, forward)
    ensures FaultsOf(s', forward).cut <==> FaultsOf(s, forward).cut || Ever(s, actions, FailedRead, forward)
    decreases |actions|
  {
    if actions != [] {
      GoodKept(s, actions[0]);
      KeptStep(s, actions[0], forward);
      CutStep(s, actions[0], forward);
      FlagsExactly(Apply(s, actions[0]), actions[1..], s', forward);
    }
  }

  /** What the words kept and clean mean for a run: a direction is kept if and only
      if no step of the run lost anything of it, and clean if and only if moreover
      none of its reads failed. */
  lemma CleanExactly(s0: System, actions: seq<Action>, s: System, forward: bool)
    requires Init(s0) && Run(s0, actions, s)
    ensures Kept(s, forward) <==> !Ever(s0, actions, Loss, forward)
    ensures Clean(s, forward) <==> !Ever(s0, actions, Loss, forward) && !Ever(s0, actions, FailedRead, forward)
  {
    InitInv(s0);
    FlagsExactly(s0, actions, s, forward);
  }

  // ------------------------------------------------------------ what a failed read leaves

  predicate FirstEnded(s: System, forward: bool) {
    if forward then s.up.Closing? || s.up.Done? else BridgeEnded(s.bridge, 1)
  }

  predicate SecondEnded(s: System, forward: bool) {
    if forward then BridgeEnded(s.bridge, 0) else s.down.Closing? || s.down.Done?
  }

  // Some hop has seen an end of file with something still to come.
  predicate Short(s: System, forward: bool) {
    || (FirstEnded(s, forward) && MoreForFirst(s, forward))
    || (SecondEnded(s, forward) && MoreForSecond(s, forward))
  }

  ghost predicate ShortStep(s: System, a: Action, forward: bool)
    requires Enabled(s, a)
  {
    Short(Apply(s, a), forward) <==> Short(s, forward) || Happens(s, a, Cut, forward)
  }

  lemma SenderShorts(s: System, a: Action, forward: bool)
    requires Good(s) && Enabled(s, a) && (a.Send? || a.HalfClose?)
    ensures ShortStep(s, a, forward)
  {
  }

  lemma ReceiverShorts(s: System, a: Action, forward: bool)
    requires Good(s) && Enabled(s, a) && (a.Receive? || a.SeeEof?)
    ensures ShortStep(s, a, forward)
  {
  }

  lemma MainShorts(s: System, a: Action, forward: bool)
    requires Good(s) && Enabled(s, a) && (a.Join? || a.CloseGuest? || a.CloseClient?)
    ensures ShortStep(s, a, forward)
  {
  }

  lemma UpShorts(s: System, a: Action, forward: bool)
    requires Good(s) && Enabled(s, a) && a.UpDo? && Kept(s, forward) && !Happens(s, a, Loss, forward)
    ensures ShortStep(s, a, forward)
  {
  }

  lemma DownShorts(s: System, a: Action, forward: bool)
    requires Good(s) && Enabled(s, a) && a.DownDo? && Kept(s, forward) && !Happens(s, a, Loss, forward)
    ensures ShortStep(s, a, forward)
  {
  }

  lemma BridgeForwardShorts(s: System, a: Action, forward: bool)
    requires Good(s) && Enabled(s, a) && a.BridgeDo? && IsHop(a.e) && a.e.dir == 0
    requires Kept(s, forward)
    ensures ShortStep(s, a, forward)
  {
    WritesOpen(s.bridge, a.e);
  }

  lemma BridgeBackwardShorts(s: System, a: Action, forward: bool)
    requires Good(s) && Enabled(s, a) && a.BridgeDo? && IsHop(a.e) && a.e.dir != 0
    requires Kept(s, forward)
    ensures ShortStep(s, a, forward)
  {
    WritesOpen(s.bridge, a.e);
  }

  // Polls, and a death of the bridge after the direction is through.
  lemma BridgeElseShorts(s: System, a: Action, forward: bool)
    requires Good(s) && Enabled(s, a) && a.BridgeDo? && !IsHop(a.e)
    requires Kept(s, forward) && !Happens(s, a, Loss, forward)
    ensures ShortStep(s, a, forward)
  {
  }

  lemma StepShorts(s: System, a: Action, forward: bool)
    requires Good(s) && Enabled(s, a) && Kept(s, forward) && !Happens(s, a, Loss, forward)
    ensures ShortStep(s, a, forward)
  {
    match a
    case UpDo(_, _) => UpShorts(s, a, forward);
    case DownDo(_, _) => DownShorts(s, a, forward);
    case BridgeDo(e, _) =>
      if IsHop(e) && e.dir == 0 { BridgeForwardShorts(s, a, forward); }
      else if IsHop(e) { BridgeBackwardShorts(s, a, forward); }
      else { BridgeElseShorts(s, a, forward); }
    case Join => MainShorts(s, a, forward);
    case CloseGuest => MainShorts(s, a, forward);
    case CloseClient => MainShorts(s, a, forward);
    case Send(_, _) => SenderShorts(s, a, forward);
    case HalfClose(_) => SenderShorts(s, a, forward);
    case _ => ReceiverShorts(s, a, forward);
  }

  lemma {:induction false} ShortExactly(s: System, actions: seq<Action>, s': System, forward: bool)
    requires Good(s) && Run(s, actions, s') && Kept(s', forward)
    ensures Good(s') && (Short(s', forward) <==> Short(s, forward) || Ever(s, actions, Cut, forward))
    decreases |actions|
  {
    if actions != [] {
      GoodKept(s, actions[0]);
      FlagsExactly(s, actions, s', forward);
      KeptStep(s, actions[0], forward);
      StepShorts(s, actions[0], forward);
      ShortExactly(Apply(s, actions[0]), actions[1..], s', forward);
    }
  }

  // At the end of file, a direction that lost nothing is whole unless a hop ended short.
  lemma WholeUnlessShort(s: System, forward: bool)
    requires Inv(s) && Kept(s, forward) && Way(s, forward).p2.Drained()
    ensures Way(s, forward).p2.all == Way(s, forward).Whole() <==> !Short(s, forward)
  {
    AllRead(Way(s, forward).p2);
    if forward { ForwardCarries(s); } else { BackwardCarries(s); }
    assert InFlight(s, forward) == [] <==> !Short(s, forward);
  }

  /** A failed read is taken for the end of the stream; exactly when that matters:
      in a run that loses nothing of a direction, a receiver that sees the end of
      file has been given everything if and only if no read of the direction failed
      while something was still to come, in its own stream, from the hop before,
      or from the sender. */
  lemma EofIsWholeExactly(s0: System, actions: seq<Action>, s: System, forward: bool)
    requires Init(s0) && Run(s0, actions, s) && !Ever(s0, actions, Loss, forward)
    requires Way(s, forward).p2.Drained()
    ensures Way(s, forward).p2.all == Way(s0, forward).script <==> !Ever(s0, actions, Cut, forward)
  {
    InitInv(s0);
    CleanExactly(s0, actions, s, forward);
    ShortExactly(s0, actions, s, forward);
    RunGood(s0, actions, s);
    WholeUnlessShort(s, forward);
  }

  /** Delivery, as a statement about what happened: in a run that, short of a
      failure, only the other direction's peers could carry on, a direction that
      was half-closed and lost nothing has been delivered completely, and its end
      of file seen, if and only if no read of it failed with something still to
      come. */
  lemma DeliveredExactly(s0: System, actions: seq<Action>, s: System, forward: bool)
    requires Init(s0) && Run(s0, actions, s) && AtRest(s, forward) && !Ever(s0, actions, Loss, forward)
    ensures Way(s, forward).seenEof
    ensures Way(s, forward).p2.all == Way(s0, forward).script <==> !Ever(s0, actions, Cut, forward)
  {
    OneWayDelivery(s, s0.fwd.script, s0.back.script, forward);
    EofIsWholeExactly(s0, actions, s, forward);
  }
}
