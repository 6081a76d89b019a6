/** End-to-end theorems about a proxied connection, over every run of the relay:
    conservation, honest end of file, independent half-close, the join before
    the closes, and total correctness of runs without faults. */
module RelayTheorems {
  import opened Prelude
  import opened Streams
  import BridgeSpec
  import CopierSpec
  import opened Relay

  ghost predicate Good(s: System) {
    Inv(s) && ReadyOk(s)
  }

  lemma GoodKept(s: System, a: Action)
    requires Good(s) && Enabled(s, a)
    ensures Good(Apply(s, a))
  {
    InvKept(s, a);
    if a.BridgeDo? { BridgeKeepsReady(s, a); } else { OthersKeepReady(s, a); }
  }

  lemma PeerKeepsWhole(p: Path, a: Action)
    requires PeerEnabled(p, a)
    ensures PeerStep(p, a).Whole() == p.Whole()
  {
    if a.Send? { assert p.script[..a.n] + p.script[a.n..] == p.script; }
  }

  lemma WholeKept(s: System, a: Action)
    requires Enabled(s, a)
    ensures Apply(s, a).fwd.Whole() == s.fwd.Whole() && Apply(s, a).back.Whole() == s.back.Whole()
  {
    if a.Send? || a.HalfClose? || a.Receive? || a.SeeEof? {
      PeerKeepsWhole(if a.forward then s.fwd else s.back, a);
    } else {
      ElsewhereKeepsSender(s, a);
    }
  }

  lemma ElsewhereKeepsSender(s: System, a: Action)
    requires Enabled(s, a) && !(a.Send? || a.HalfClose? || a.Receive? || a.SeeEof?)
    ensures var s' := Apply(s, a);
      && s'.fwd.script == s.fwd.script && s'.fwd.p0.all == s.fwd.p0.all
      && s'.back.script == s.back.script && s'.back.p0.all == s.back.p0.all
  {
  }

  lemma {:induction false} RunGood(s: System, actions: seq<Action>, s': System)
    requires Good(s) && Run(s, actions, s')
    ensures Good(s') && s'.fwd.Whole() == s.fwd.Whole() && s'.back.Whole() == s.back.Whole()
    decreases |actions|
  {
    if actions != [] {
      GoodKept(s, actions[0]);
      WholeKept(s, actions[0]);
      RunGood(Apply(s, actions[0]), actions[1..], s');
    }
  }

  // s is reached when the peers set out to send toTarget and toClient.
  ghost predicate Reached(s: System, toTarget: seq<byte>, toClient: seq<byte>) {
    exists s0, actions :: Init(s0) && Run(s0, actions, s) && s0.fwd.script == toTarget && s0.back.script == toClient
  }

  lemma ReachedGood(s: System, toTarget: seq<byte>, toClient: seq<byte>)
    requires Reached(s, toTarget, toClient)
    ensures Good(s) && s.fwd.Whole() == toTarget && s.back.Whole() == toClient
  {
    var s0, actions :| Init(s0) && Run(s0, actions, s) && s0.fwd.script == toTarget && s0.back.script == toClient;
    InitInv(s0);
    RunGood(s0, actions, s);
  }

  // ------------------------------------------------------------ conservation

  // One direction, by name.
  function Way(s: System, forward: bool): Path {
    if forward then s.fwd else s.back
  }

  function FaultsOf(s: System, forward: bool): Faults {
    if forward then s.fwdFaults else s.backFaults
  }

  // Nothing read in the direction has been dropped: no copier's write in it has
  // failed, and the bridge did not die while it was open.
  predicate Kept(s: System, forward: bool) {
    !FaultsOf(s, forward).lost && BridgeKept(s.bridge, if forward then 0 else 1)
  }

  // Nor was a failed read taken for the end of the stream.
  predicate Clean(s: System, forward: bool) {
    Kept(s, forward) && !FaultsOf(s, forward).cut
  }

  // The bytes on their way, from the receiver's end back to the sender's unsent
  // rest: forward, on the socket, in the bridge's buffer, on the guest's stdin, in
  // the copier's buffer, on the client's connection, not yet sent.
  ghost function InFlight(s: System, forward: bool): seq<byte>
    requires Inv(s)
  {
    if forward then
      s.fwd.p2.Left() + BridgeSpec.Pending(s.bridge, 0) + s.fwd.p1.Left() + CopierPending(s.up)
      + s.fwd.p0.Left() + s.fwd.script
    else
      s.back.p2.Left() + CopierPending(s.down) + s.back.p1.Left() + BridgeSpec.Pending(s.bridge, 1)
      + s.back.p0.Left() + s.back.script
  }

  // Delivered, and on the way.
  ghost function Carried(s: System, forward: bool): seq<byte>
    requires Inv(s)
  {
    Way(s, forward).p2.Read() + InFlight(s, forward)
  }

  lemma ReadLeft(p: Pipe)
    requires p.Ok()
    ensures p.Read() + p.Left() == p.all
  {
  }

  // Three pipes joined by two hops hold, in order, everything sent.
  lemma Joined(p0: Pipe, h0: seq<byte>, p1: Pipe, h1: seq<byte>, p2: Pipe, script: seq<byte>)
    requires p0.Ok() && p1.Ok() && p2.Ok()
    requires p1.all + h0 == p0.Read() && p2.all + h1 == p1.Read()
    ensures p2.Read() + (p2.Left() + h1 + p1.Left() + h0 + p0.Left() + script) == p0.all + script
  {
    ReadLeft(p0);
    ReadLeft(p1);
    ReadLeft(p2);
    assert p2.Read() + (p2.Left() + h1 + p1.Left()) == p1.all;
    assert p2.Read() + (p2.Left() + h1 + p1.Left() + h0 + p0.Left()) == p1.all + h0 + p0.Left();
  }

  lemma ForwardCarries(s: System)
    requires Inv(s) && Kept(s, true)
    ensures Carried(s, true) == s.fwd.Whole()
  {
    assert BridgeHopOk(s.bridge, 0, s.fwd.p1, s.fwd.p2, s.fwdFaults);
    Joined(s.fwd.p0, CopierPending(s.up), s.fwd.p1, BridgeSpec.Pending(s.bridge, 0), s.fwd.p2, s.fwd.script);
  }

  lemma BackwardCarries(s: System)
    requires Inv(s) && Kept(s, false)
    ensures Carried(s, false) == s.back.Whole()
  {
    assert BridgeHopOk(s.bridge, 1, s.back.p0, s.back.p1, s.backFaults);
    Joined(s.back.p0, BridgeSpec.Pending(s.bridge, 1), s.back.p1, CopierPending(s.down), s.back.p2, s.back.script);
  }

  /** Conservation: in each direction, whatever happens in the other and whatever
      reads fail, the bytes delivered and the bytes in every hop on the way are, in
      order, exactly what the sender sends, as long as no write of the direction's
      copier has failed and the bridge has not died with the direction open. */
  lemma Conservation(s: System, toTarget: seq<byte>, toClient: seq<byte>)
    requires Reached(s, toTarget, toClient)
    ensures Inv(s)
    ensures Kept(s, true) ==> Carried(s, true) == toTarget
    ensures Kept(s, false) ==> Carried(s, false) == toClient
  {
    ReachedGood(s, toTarget, toClient);
    if Kept(s, true) { ForwardCarries(s); }
    if Kept(s, false) { BackwardCarries(s); }
  }

  /** Whatever fails, what a receiver has got is a prefix of what the other side
      sends: nothing is invented, repeated or reordered. */
  lemma OnlyPrefixes(s: System, toTarget: seq<byte>, toClient: seq<byte>)
    requires Reached(s, toTarget, toClient)
    ensures Inv(s) && s.fwd.p2.Read() <= toTarget && s.back.p2.Read() <= toClient
  {
    ReachedGood(s, toTarget, toClient);
    Chain(s.fwd);
    Chain(s.back);
  }

  lemma Chain(p: Path)
    requires p.p0.Ok() && p.p1.Ok() && p.p2.Ok()
    requires p.p1.all <= p.p0.Read() && p.p2.all <= p.p1.Read()
    ensures p.p2.Read() <= p.Whole()
  {
  }

  // ------------------------------------------------------------ end of file

  /** End of file never overtakes data: a receiver that can see the end of file
      has been given everything the sender meant to send, and the sender has
      half-closed, in each direction that is clean, whatever fails in the other. */
  lemma EofAfterData(s: System, toTarget: seq<byte>, toClient: seq<byte>)
    requires Reached(s, toTarget, toClient)
    ensures Clean(s, true) && s.fwd.p2.Drained() ==> s.fwd.p2.all == toTarget && s.fwd.p0.eof
    ensures Clean(s, false) && s.back.p2.Drained() ==> s.back.p2.all == toClient && s.back.p0.eof
  {
    ReachedGood(s, toTarget, toClient);
  }

  lemma AllRead(p: Pipe)
    requires p.Ok() && p.taken == |p.all|
    ensures p.Read() == p.all
  {
  }

  // ------------------------------------------------------------ the proxy's join

  /** Neither connection is closed before both copiers are done, and then each
      has half-closed its destination; if clean, everything the client sent is then
      on its way into the guest, and everything the target sent on its way to the
      client. */
  lemma CloseAfterBoth(s: System, toTarget: seq<byte>, toClient: seq<byte>)
    requires Reached(s, toTarget, toClient) && (s.guestClosed || s.clientClosed)
    ensures s.up.Done? && s.down.Done? && s.fwd.p1.eof && s.back.p2.eof
    ensures Clean(s, true) ==> s.fwd.p1.all == toTarget
    ensures Clean(s, false) ==> s.back.p2.all == toClient
  {
    ReachedGood(s, toTarget, toClient);
  }

  // ------------------------------------------------------------ termination

  function PathRank(p: Path): int
    requires PathOkToRank(p)
  {
    6 * |p.script| + 5 * |p.p0.Left()| + 3 * |p.p1.Left()| + |p.p2.Left()|
    + (if p.p0.eof then 0 else 1) + (if p.seenEof then 0 else 1)
  }

  predicate PathOkToRank(p: Path) {
    p.p0.Ok() && p.p1.Ok() && p.p2.Ok()
  }

  function CopierRank(c: CopierSpec.Copier): nat {
    match c case Reading => 2 case Writing(_) => 2 case Closing => 1 case Done => 0
  }

  function BridgeRank(b: BridgeSpec.BridgeState): nat {
    4 * ((if BridgeEnded(b, 0) then 0 else 1) + (if BridgeEnded(b, 1) then 0 else 1)
         + (if b.open0 then 1 else 0) + (if b.open1 then 1 else 0))
    + match b.mode case Top => 3 case Aborted => 0 case _ => 2
  }

  // Bytes weigh by the hops they still have to take; each hop is worth more than
  // one pass of the bridge's loop.
  function ForwardRank(p: Path, up: CopierSpec.Copier, b: BridgeSpec.BridgeState): int
    requires PathOkToRank(p)
  {
    4 * (PathRank(p) + 4 * |CopierPending(up)| + 2 * |BridgeSpec.Pending(b, 0)| + CopierRank(up))
  }

  function BackwardRank(p: Path, down: CopierSpec.Copier, b: BridgeSpec.BridgeState): int
    requires PathOkToRank(p)
  {
    4 * (PathRank(p) + 2 * |CopierPending(down)| + 4 * |BridgeSpec.Pending(b, 1)| + CopierRank(down))
  }

  function Rank(s: System): int
    requires PathOkToRank(s.fwd) && PathOkToRank(s.back)
  {
    ForwardRank(s.fwd, s.up, s.bridge) + BackwardRank(s.back, s.down, s.bridge)
    + BridgeRank(s.bridge) + s.interrupts
    + (2 - s.joined) + (if s.guestClosed then 0 else 1) + (if s.clientClosed then 0 else 1)
  }

  lemma PeerLowers(p: Path, a: Action)
    requires PathOk(p) && PeerEnabled(p, a)
    ensures PathOk(PeerStep(p, a)) && PathRank(PeerStep(p, a)) < PathRank(p)
  {
  }

  lemma PeerFalls(s: System, a: Action)
    requires Good(s) && Enabled(s, a) && (a.Send? || a.HalfClose? || a.Receive? || a.SeeEof?)
    ensures PathOkToRank(Apply(s, a).fwd) && PathOkToRank(Apply(s, a).back)
    ensures Rank(Apply(s, a)) < Rank(s)
  {
    PeerLowers(if a.forward then s.fwd else s.back, a);
  }

  // What one hop has in its pipes and buffer, weighed from w upwards.
  function HopRank(src: Pipe, pending: seq<byte>, dst: Pipe, w: nat): int
    requires src.Ok() && dst.Ok()
  {
    (w + 2) * |src.Left()| + (w + 1) * |pending| + w * |dst.Left()|
  }

  lemma CopierLowers(c: CopierSpec.Copier, src: Pipe, dst: Pipe, e: Event, fault: bool, f: Faults)
    requires CopierOk(c, src, dst, f) && CopierEnabled(c, src, dst, e, fault)
    ensures var c', src', dst' := CopierSpec.Advance(c, e).value, HopSrc(src, e), HopDst(dst, e);
      && src'.Ok() && dst'.Ok()
      && HopRank(src', CopierPending(c'), dst', 1) + CopierRank(c')
         < HopRank(src, CopierPending(c), dst, 1) + CopierRank(c)
      && HopRank(src', CopierPending(c'), dst', 3) + CopierRank(c')
         < HopRank(src, CopierPending(c), dst, 3) + CopierRank(c)
      && src'.eof == src.eof
  {
  }

  lemma UpFalls(s: System, a: Action)
    requires Good(s) && Enabled(s, a) && a.UpDo?
    ensures PathOkToRank(Apply(s, a).fwd) && PathOkToRank(Apply(s, a).back)
    ensures Rank(Apply(s, a)) < Rank(s)
  {
    CopierLowers(s.up, s.fwd.p0, s.fwd.p1, a.e, a.fault, s.fwdFaults);
  }

  lemma DownFalls(s: System, a: Action)
    requires Good(s) && Enabled(s, a) && a.DownDo?
    ensures PathOkToRank(Apply(s, a).fwd) && PathOkToRank(Apply(s, a).back)
    ensures Rank(Apply(s, a)) < Rank(s)
  {
    CopierLowers(s.down, s.back.p1, s.back.p2, a.e, a.fault, s.backFaults);
  }

  lemma MainFalls(s: System, a: Action)
    requires Good(s) && Enabled(s, a) && (a.Join? || a.CloseGuest? || a.CloseClient?)
    ensures PathOkToRank(Apply(s, a).fwd) && PathOkToRank(Apply(s, a).back)
    ensures Rank(Apply(s, a)) < Rank(s)
  {
  }

  // A read or write of the bridge in direction d moves bytes down by at least one
  // hop, or ends a stage.
  ghost predicate Lowers(b: BridgeSpec.BridgeState, d: nat, src: Pipe, dst: Pipe, e: Event, w: nat)
    requires src.Ok() && dst.Ok() && BridgeSpec.Advance(b, e).Some?
  {
    var b', src', dst' := BridgeSpec.Advance(b, e).value, HopSrc(src, e), HopDst(dst, e);
    && src'.Ok() && dst'.Ok()
    && 4 * HopRank(src', BridgeSpec.Pending(b', d), dst', w) + BridgeRank(b')
       < 4 * HopRank(src, BridgeSpec.Pending(b, d), dst, w) + BridgeRank(b)
  }

  lemma BridgeMoveLowers(b: BridgeSpec.BridgeState, d: nat, src: Pipe, dst: Pipe, e: Event, f: Faults, w: nat)
    requires BridgeSpec.Consistent(b) && d <= 1 && BridgeHopOk(b, d, src, dst, f) && (w == 1 || w == 3)
    requires BridgeSpec.Advance(b, e).Some? && (e.Got? || e.Put?) && e.dir == d && HopEnabled(src, dst, e, false)
    ensures Lowers(b, d, src, dst, e, w)
  {
    if e.Got? {
      assert |HopSrc(src, e).Left()| == |src.Left()| - |e.chunk|;
    } else {
      assert |HopDst(dst, e).Left()| == |dst.Left()| + |e.bytes|;
    }
  }

  lemma BridgeEndLowers(b: BridgeSpec.BridgeState, d: nat, src: Pipe, dst: Pipe, e: Event, w: nat)
    requires BridgeSpec.Consistent(b) && d <= 1 && src.Ok() && dst.Ok()
    requires BridgeSpec.Advance(b, e).Some? && (e.Ended? || e.Shut?) && e.dir == d
    ensures Lowers(b, d, src, dst, e, w)
  {
  }

  lemma BridgeLowers(b: BridgeSpec.BridgeState, d: nat, src: Pipe, dst: Pipe, e: Event, fault: bool, f: Faults, w: nat)
    requires BridgeSpec.Consistent(b) && d <= 1 && BridgeHopOk(b, d, src, dst, f) && (w == 1 || w == 3)
    requires BridgeSpec.Advance(b, e).Some? && IsHop(e) && e.dir == d && HopEnabled(src, dst, e, fault)
    ensures Lowers(b, d, src, dst, e, w)
    ensures BridgeSpec.Pending(BridgeSpec.Advance(b, e).value, 1 - d) == BridgeSpec.Pending(b, 1 - d)
  {
    if e.Got? || e.Put? { BridgeMoveLowers(b, d, src, dst, e, f, w); } else { BridgeEndLowers(b, d, src, dst, e, w); }
  }

  lemma BridgeForwardFalls(s: System, a: Action)
    requires Good(s) && Enabled(s, a) && a.BridgeDo? && IsHop(a.e) && a.e.dir == 0
    ensures PathOkToRank(Apply(s, a).fwd) && PathOkToRank(Apply(s, a).back)
    ensures Rank(Apply(s, a)) < Rank(s)
  {
    var s' := Apply(s, a);
    WritesOpen(s.bridge, a.e);
    assert BridgeHopOk(s.bridge, 0, s.fwd.p1, s.fwd.p2, s.fwdFaults);
    BridgeLowers(s.bridge, 0, s.fwd.p1, s.fwd.p2, a.e, a.fault, s.fwdFaults, 1);
    assert s'.fwd == BridgeForward(s.fwd, a.e) && s'.bridge == BridgeSpec.Advance(s.bridge, a.e).value;
    assert BackwardRank(s'.back, s'.down, s'.bridge) == BackwardRank(s.back, s.down, s.bridge);
    assert ForwardRank(s'.fwd, s'.up, s'.bridge) + BridgeRank(s'.bridge)
         < ForwardRank(s.fwd, s.up, s.bridge) + BridgeRank(s.bridge);
  }

  lemma BridgeBackwardFalls(s: System, a: Action)
    requires Good(s) && Enabled(s, a) && a.BridgeDo? && IsHop(a.e) && a.e.dir != 0
    ensures PathOkToRank(Apply(s, a).fwd) && PathOkToRank(Apply(s, a).back)
    ensures Rank(Apply(s, a)) < Rank(s)
  {
    var s' := Apply(s, a);
    WritesOpen(s.bridge, a.e);
    assert BridgeHopOk(s.bridge, 1, s.back.p0, s.back.p1, s.backFaults);
    BridgeLowers(s.bridge, 1, s.back.p0, s.back.p1, a.e, a.fault, s.backFaults, 3);
    assert s'.back == BridgeBackward(s.back, a.e) && s'.bridge == BridgeSpec.Advance(s.bridge, a.e).value;
    assert ForwardRank(s'.fwd, s'.up, s'.bridge) == ForwardRank(s.fwd, s.up, s.bridge);
    assert BackwardRank(s'.back, s'.down, s'.bridge) + BridgeRank(s'.bridge)
         < BackwardRank(s.back, s.down, s.bridge) + BridgeRank(s.bridge);
  }

  lemma BridgePollFalls(s: System, a: Action)
    requires Good(s) && Enabled(s, a) && a.BridgeDo? && (a.e.Polled? || a.e.Interrupted?)
    ensures PathOkToRank(Apply(s, a).fwd) && PathOkToRank(Apply(s, a).back)
    ensures Rank(Apply(s, a)) < Rank(s)
  {
    var s' := Apply(s, a);
    assert s'.fwd == s.fwd && s'.back == s.back;
    assert BridgeRank(s'.bridge) + s'.interrupts < BridgeRank(s.bridge) + s.interrupts;
  }

  lemma BridgeAbortFalls(s: System, a: Action)
    requires Good(s) && Enabled(s, a) && a.BridgeDo? && (a.e.PollFailed? || a.e.PutFailed?)
    ensures PathOkToRank(Apply(s, a).fwd) && PathOkToRank(Apply(s, a).back)
    ensures Rank(Apply(s, a)) < Rank(s)
  {
    var s' := Apply(s, a);
    assert s'.bridge.mode.Aborted? && BridgeRank(s'.bridge) < BridgeRank(s.bridge);
    assert ForwardRank(s'.fwd, s'.up, s'.bridge) <= ForwardRank(s.fwd, s.up, s.bridge);
    assert BackwardRank(s'.back, s'.down, s'.bridge) <= BackwardRank(s.back, s.down, s.bridge);
  }

  /** Every step lowers the rank, also a failing one. */
  lemma RankFalls(s: System, a: Action)
    requires Good(s) && Enabled(s, a)
    ensures PathOkToRank(Apply(s, a).fwd) && PathOkToRank(Apply(s, a).back)
    ensures 0 <= Rank(s) && Rank(Apply(s, a)) < Rank(s)
  {
    RankIsNatural(s);
    match a
    case UpDo(_, _) => UpFalls(s, a);
    case DownDo(_, _) => DownFalls(s, a);
    case BridgeDo(e, _) =>
      if IsHop(e) && e.dir == 0 { BridgeForwardFalls(s, a); }
      else if IsHop(e) { BridgeBackwardFalls(s, a); }
      else if e.Polled? || e.Interrupted? { BridgePollFalls(s, a); }
      else { BridgeAbortFalls(s, a); }
    case Join => MainFalls(s, a);
    case CloseGuest => MainFalls(s, a);
    case CloseClient => MainFalls(s, a);
    case _ => PeerFalls(s, a);
  }

  lemma RankIsNatural(s: System)
    requires Good(s)
    ensures 0 <= Rank(s)
  {
  }

  lemma {:induction false} RunsAreShort(s: System, actions: seq<Action>, s': System)
    requires Good(s) && Run(s, actions, s')
    ensures |actions| <= Rank(s)
    decreases |actions|
  {
    if actions == [] {
      RankIsNatural(s);
    } else {
      RankFalls(s, actions[0]);
      GoodKept(s, actions[0]);
      RunsAreShort(Apply(s, actions[0]), actions[1..], s');
    }
  }

  /** Termination: every run of the relay is finite, for every choice of chunk
      sizes, readiness and faults: at most 24 steps for each byte sent in either
      direction, one for each interrupted poll, and 55 more. */
  lemma Termination(s: System, actions: seq<Action>, s': System)
    requires Init(s) && Run(s, actions, s')
    ensures |actions| <= 24 * (|s.fwd.script| + |s.back.script|) + s.interrupts + 55
  {
    InitInv(s);
    RunsAreShort(s, actions, s');
  }

  // ------------------------------------------------------------ completion

  // What the environment may do to the relay and never has to: make a read, write
  // or poll fail, or interrupt a poll.
  predicate Failing(a: Action) {
    (a.UpDo? || a.DownDo? || a.BridgeDo?) && (a.fault || a.e.Interrupted?)
  }

  lemma SenderEvent(s: System, forward: bool) returns (a: Action)
    requires !Way(s, forward).p0.eof
    ensures Enabled(s, a) && !Failing(a)
  {
    a := if Way(s, forward).script != [] then Send(forward, 1) else HalfClose(forward);
  }

  lemma OffersOne(p: Pipe)
    requires p.taken < |p.all|
    ensures p.Offers([p.all[p.taken]])
  {
  }

  // A copier whose source has ended or has bytes can go on until it is done.
  lemma CopierEvent(c: CopierSpec.Copier, src: Pipe, dst: Pipe, f: Faults) returns (e: Event)
    requires CopierOk(c, src, dst, f) && src.Ready() && !c.Done?
    ensures CopierEnabled(c, src, dst, e, false) && !e.Interrupted?
  {
    match c
    case Reading =>
      e := Ended(0);
      if src.taken < |src.all| {
        e := Got(0, [src.all[src.taken]]);
        OffersOne(src);
      }
    case Writing(chunk) => e := Put(0, chunk);
    case Closing => e := Shut(0);
  }

  // The bridge can go on unless it waits at the top for directions not ready.
  lemma BridgeEvent(s: System) returns (e: Event)
    requires Good(s) && !s.bridge.mode.Aborted?
    requires !s.bridge.mode.Top? || (s.bridge.open0 && s.fwd.p1.Ready()) || (s.bridge.open1 && s.back.p0.Ready())
    ensures BridgeEnabled(s, e, false) && !e.Interrupted?
  {
    var b := s.bridge;
    match b.mode
    case Top => e := Polled(b.open0 && s.fwd.p1.Ready(), b.open1 && s.back.p0.Ready());
    case Poised(r0, r1) =>
      var d := if r0 then 0 else 1;
      var src := if r0 then s.fwd.p1 else s.back.p0;
      e := Ended(d);
      if src.taken < |src.all| {
        OffersOne(src);
        e := Got(d, [src.all[src.taken]]);
      }
    case Writing(d, chunk, _) => e := Put(d, chunk);
    case Shutting(d, _) => e := Shut(d);
  }

  // A receiver with bytes or an end of file before it can take them.
  lemma ReceiverEvent(s: System, forward: bool) returns (a: Action)
    requires Good(s) && Way(s, forward).p2.Ready() && !Way(s, forward).seenEof
    ensures Enabled(s, a) && PeerOf(a, forward) && !Failing(a)
  {
    var p := Way(s, forward).p2;
    a := if p.taken < |p.all| then Receive(forward, 1) else SeeEof(forward);
  }

  // The step is one of the two peers of the direction.
  predicate PeerOf(a: Action, forward: bool) {
    (a.Send? || a.HalfClose? || a.Receive? || a.SeeEof?) && a.forward == forward
  }

  // A half-closed direction whose receiver has not seen the end can go on without
  // a failure, and without any help from the peers of the other.
  lemma OneWaySteps(s: System, forward: bool) returns (a: Action)
    requires Good(s) && Way(s, forward).p0.eof && !Way(s, forward).seenEof
    ensures Enabled(s, a) && !Failing(a) && !PeerOf(a, !forward)
  {
    if forward && !s.up.Done? {
      var e := CopierEvent(s.up, s.fwd.p0, s.fwd.p1, s.fwdFaults);
      a := UpDo(e, false);
    } else if !s.bridge.mode.Aborted? && (if forward then s.bridge.open0 else s.bridge.open1) {
      var e := BridgeEvent(s);
      a := BridgeDo(e, false);
    } else if !forward && !s.down.Done? {
      var e := CopierEvent(s.down, s.back.p1, s.back.p2, s.backFaults);
      a := DownDo(e, false);
    } else {
      a := ReceiverEvent(s, forward);
    }
  }

  // The direction is half-closed and, short of a failure, nobody can go on but the
  // peers of the other, which may well be open.
  ghost predicate AtRest(s: System, forward: bool) {
    && Way(s, forward).p0.eof
    && forall a: Action | Enabled(s, a) && !Failing(a) :: PeerOf(a, !forward)
  }

  /** One direction alone: when its sender has half-closed and all are waiting for
      the other direction's peers, whose sender may be silent for ever without
      half-closing, the receiver has seen the end of file, and if the direction is clean
      has been given everything before. */
  lemma OneWayDelivery(s: System, toTarget: seq<byte>, toClient: seq<byte>, forward: bool)
    requires Reached(s, toTarget, toClient) && AtRest(s, forward)
    ensures Way(s, forward).seenEof && Way(s, forward).p2.Drained()
    ensures Clean(s, forward) ==> Way(s, forward).p2.all == if forward then toTarget else toClient
  {
    ReachedGood(s, toTarget, toClient);
    if !Way(s, forward).seenEof { var a := OneWaySteps(s, forward); }
    EofAfterData(s, toTarget, toClient);
  }

  // Nothing is left to do.
  predicate Finished(s: System) {
    && s.fwd.p0.eof && s.back.p0.eof && s.up.Done? && s.down.Done?
    && (s.bridge.mode.Aborted? || (!s.bridge.open0 && !s.bridge.open1))
    && s.fwd.seenEof && s.back.seenEof && s.guestClosed && s.clientClosed
  }

  /** The relay never stands still: unless everything is finished, some step can be
      taken that is not a failure. */
  lemma UnfinishedSteps(s: System) returns (a: Action)
    requires Good(s) && !Finished(s)
    ensures Enabled(s, a) && !Failing(a)
  {
    if !s.fwd.p0.eof { a := SenderEvent(s, true); }
    else if !s.back.p0.eof { a := SenderEvent(s, false); }
    else if !s.up.Done? {
      var e := CopierEvent(s.up, s.fwd.p0, s.fwd.p1, s.fwdFaults);
      a := UpDo(e, false);
    }
    else if !s.bridge.mode.Aborted? && (!s.bridge.mode.Top? || s.bridge.open0 || s.bridge.open1) {
      var e := BridgeEvent(s);
      a := BridgeDo(e, false);
    }
    else if !s.down.Done? {
      var e := CopierEvent(s.down, s.back.p1, s.back.p2, s.backFaults);
      a := DownDo(e, false);
    }
    else if !s.fwd.seenEof || !s.back.seenEof { a := ReceiverEvent(s, !s.fwd.seenEof); }
    else if s.joined < 2 { a := Join; }
    else if !s.guestClosed { a := CloseGuest; }
    else { a := CloseClient; }
  }

  /** Every run that, short of a failure, can go no further has, whatever failed on
      the way, both copiers done, both ends half-closed, the bridge gone and both
      connections closed; and each clean direction, in whatever order the two
      finished and whatever failed in the other, was delivered completely before
      its receiver saw the end of file. */
  lemma Completion(s: System, toTarget: seq<byte>, toClient: seq<byte>)
    requires Reached(s, toTarget, toClient) && forall a: Action | Enabled(s, a) :: Failing(a)
    ensures Finished(s)
    ensures Clean(s, true) ==> s.fwd.p2.Drained() && s.fwd.p2.all == toTarget
    ensures Clean(s, false) ==> s.back.p2.Drained() && s.back.p2.all == toClient
  {
    ReachedGood(s, toTarget, toClient);
    if !Finished(s) { var a := UnfinishedSteps(s); }
    EofAfterData(s, toTarget, toClient);
  }

  // ------------------------------------------------------------ independence

  lemma CleanBefore(s: System, a: Action, forward: bool)
    requires Good(s) && Enabled(s, a) && Clean(Apply(s, a), forward)
    ensures Clean(s, forward)
  {
    if a.BridgeDo? && IsHop(a.e) { WritesOpen(s.bridge, a.e); }
  }

  lemma LastPipeGrows(s: System, a: Action, forward: bool)
    requires Enabled(s, a)
    ensures var p, p' := Way(s, forward).p2, Way(Apply(s, a), forward).p2;
      p.all <= p'.all && p.taken <= p'.taken
  {
  }

  lemma DeliveredGrows(s: System, a: Action, forward: bool)
    requires Good(s) && Enabled(s, a) && Good(Apply(s, a))
    ensures Way(s, forward).p2.Read() <= Way(Apply(s, a), forward).p2.Read()
  {
    LastPipeGrows(s, a, forward);
    ReadGrows(Way(s, forward).p2, Way(Apply(s, a), forward).p2);
  }

  lemma ReadGrows(p: Pipe, p': Pipe)
    requires p.Ok() && p'.Ok() && p.all <= p'.all && p.taken <= p'.taken
    ensures p.Read() <= p'.Read()
  {
  }

  lemma {:induction false} RunDelivers(s: System, actions: seq<Action>, s': System, forward: bool)
    requires Good(s) && Run(s, actions, s') && Clean(s', forward)
    ensures Good(s') && Clean(s, forward) && Way(s, forward).p2.Read() <= Way(s', forward).p2.Read()
    decreases |actions|
  {
    if actions != [] {
      GoodKept(s, actions[0]);
      RunDelivers(Apply(s, actions[0]), actions[1..], s', forward);
      CleanBefore(s, actions[0], forward);
      DeliveredGrows(s, actions[0], forward);
    }
  }

  lemma {:induction false} RunOn(s0: System, actions: seq<Action>, s: System, more: seq<Action>, s': System)
    requires Run(s0, actions, s) && Run(s, more, s')
    ensures Run(s0, actions + more, s')
    decreases |actions|
  {
    if actions == [] {
      assert actions + more == more;
    } else {
      RunOn(Apply(s0, actions[0]), actions[1..], s, more, s');
      assert (actions + more)[1..] == actions[1..] + more;
    }
  }

  lemma ReachedOn(s: System, actions: seq<Action>, s': System, toTarget: seq<byte>, toClient: seq<byte>)
    requires Reached(s, toTarget, toClient) && Run(s, actions, s')
    ensures Reached(s', toTarget, toClient)
  {
    var s0, before :|
      Init(s0) && Run(s0, before, s) && s0.fwd.script == toTarget && s0.back.script == toClient;
    RunOn(s0, before, s, actions, s');
  }

  /** The directions are independent.  Take any part of a run, with whatever
      half-closes, read errors and failed writes happen in the other direction: a
      direction still clean at its end has neither lost, gained nor reordered a
      byte over it, takes back nothing it delivered, shows its end of file only
      once its own sender has half-closed and everything is there, and has been
      delivered completely once its sender has half-closed and, short of a failure,
      the run can go on only by the peers of the other direction, open or not. */
  lemma HalfCloseIsIndependent(s: System, actions: seq<Action>, s': System,
                               toTarget: seq<byte>, toClient: seq<byte>, forward: bool)
    requires Reached(s, toTarget, toClient) && Run(s, actions, s') && Clean(s', forward)
    ensures Inv(s) && Inv(s') && Clean(s, forward)
    ensures var sent := if forward then toTarget else toClient;
      && Carried(s, forward) == Carried(s', forward) == sent
      && Way(s, forward).p2.Read() <= Way(s', forward).p2.Read() <= sent
      && (Way(s', forward).p2.Drained() ==> Way(s', forward).p0.eof && Way(s', forward).p2.Read() == sent)
      && (AtRest(s', forward) ==> Way(s', forward).seenEof && Way(s', forward).p2.Read() == sent)
  {
    ReachedGood(s, toTarget, toClient);
    RunDelivers(s, actions, s', forward);
    ReachedOn(s, actions, s', toTarget, toClient);
    Conservation(s, toTarget, toClient);
    Conservation(s', toTarget, toClient);
    EofAfterData(s', toTarget, toClient);
    if Way(s', forward).p2.Drained() { AllRead(Way(s', forward).p2); }
    if AtRest(s', forward) { OneWayDelivery(s', toTarget, toClient, forward); }
  }
}
