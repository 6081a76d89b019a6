/** The whole relay of one proxied connection, end to end: client -> proxy
    copier -> guest stdin -> bridge -> target, and target -> bridge -> guest
    stdout -> proxy copier -> client.  The bridge and the copiers are the
    machines their loops are proved to follow; the environment chooses every
    chunk size, every readiness and every failure. */
module Relay {
  import opened Prelude
  import opened Streams
  import BridgeSpec
  import CopierSpec

  // A FIFO byte stream: everything ever written, how much of it has been read,
  // and whether its writer has half-closed.
  datatype Pipe = Pipe(all: seq<byte>, taken: nat, eof: bool) {
    predicate Ok() { taken <= |all| }
    function Left(): seq<byte> requires Ok() { all[taken..] }
    function Read(): seq<byte> requires Ok() { all[..taken] }
    function Feed(bytes: seq<byte>): Pipe { this.(all := all + bytes) }
    function Take(n: nat): Pipe { this.(taken := taken + n) }
    predicate Ready() { taken < |all| || eof }
    predicate Offers(chunk: seq<byte>) { taken + |chunk| <= |all| && chunk == all[taken..taken + |chunk|] }
    predicate Drained() { eof && taken == |all| }
  }

  // One direction: the sender's script still to send, the three pipes on the
  // way, and whether the receiver has seen the end of file.
  datatype Path = Path(script: seq<byte>, p0: Pipe, p1: Pipe, p2: Pipe, seenEof: bool) {
    // What the sender will have sent when its script is done.
    function Whole(): seq<byte> { p0.all + script }
  }

  // What has failed in one direction: a read, which leaves the rest unread (cut),
  // or a copier's write, which may take bytes with it (lost).
  datatype Faults = Faults(cut: bool, lost: bool)

  const NO_FAULTS := Faults(false, false)

  function Note(f: Faults, e: Event, fault: bool): Faults {
    if !fault then f else if e.Ended? then f.(cut := true) else f.(lost := true)
  }

  // fwd: client -> target; back: target -> client.
  datatype System = System(
    fwd: Path, back: Path,
    up: CopierSpec.Copier, down: CopierSpec.Copier,
    bridge: BridgeSpec.BridgeState, interrupts: nat,
    joined: nat, guestClosed: bool, clientClosed: bool,
    fwdFaults: Faults, backFaults: Faults)

  datatype Action =
    | Send(forward: bool, n: nat)
    | HalfClose(forward: bool)
    | Receive(forward: bool, n: nat)
    | SeeEof(forward: bool)
    | UpDo(e: Event, fault: bool)
    | DownDo(e: Event, fault: bool)
    | BridgeDo(e: Event, fault: bool)
    | Join
    | CloseGuest
    | CloseClient

  const EMPTY := Pipe([], 0, false)

  predicate Init(s: System) {
    && s.fwd.p0 == s.fwd.p1 == s.fwd.p2 == s.back.p0 == s.back.p1 == s.back.p2 == EMPTY
    && !s.fwd.seenEof && !s.back.seenEof
    && s.up == s.down == CopierSpec.Reading && s.bridge == BridgeSpec.START
    && s.joined == 0 && !s.guestClosed && !s.clientClosed
    && s.fwdFaults == s.backFaults == NO_FAULTS
  }

  // ------------------------------------------------------------ peers

  predicate PeerEnabled(p: Path, a: Action) {
    match a
    case Send(_, n) => 0 < n <= |p.script| && !p.p0.eof
    case HalfClose(_) => p.script == [] && !p.p0.eof
    case Receive(_, n) => 0 < n && p.p2.taken + n <= |p.p2.all|
    case SeeEof(_) => p.p2.Drained() && !p.seenEof
    case _ => false
  }

  function PeerStep(p: Path, a: Action): Path
    requires PeerEnabled(p, a)
  {
    match a
    case Send(_, n) => p.(script := p.script[n..], p0 := p.p0.Feed(p.script[..n]))
    case HalfClose(_) => p.(p0 := p.p0.(eof := true))
    case Receive(_, n) => p.(p2 := p.p2.Take(n))
    case SeeEof(_) => p.(seenEof := true)
  }

  // ------------------------------------------------------------ hops

  // Whether a read or write event agrees with the pipes it is about.  A fault is
  // a read that fails though there may be more to read, or a failed write.
  predicate HopEnabled(src: Pipe, dst: Pipe, e: Event, fault: bool) {
    match e
    case Got(_, chunk) => src.Offers(chunk) && !fault
    case Ended(_) => fault || src.Drained()
    case Put(_, _) => !fault
    case PutFailed(_) => fault
    case Shut(_) => !fault
    case _ => false
  }

  function HopSrc(src: Pipe, e: Event): Pipe {
    if e.Got? then src.Take(|e.chunk|) else src
  }

  function HopDst(dst: Pipe, e: Event): Pipe {
    match e
    case Put(_, bytes) => dst.Feed(bytes)
    case Shut(_) => dst.(eof := true)
    case _ => dst
  }

  // A copier's step between two pipes.
  predicate CopierEnabled(c: CopierSpec.Copier, src: Pipe, dst: Pipe, e: Event, fault: bool) {
    CopierSpec.Advance(c, e).Some? && HopEnabled(src, dst, e, fault)
  }

  predicate BridgeEnabled(s: System, e: Event, fault: bool) {
    && BridgeSpec.Advance(s.bridge, e).Some?
    && match e
       case Polled(r0, r1) => (r0 ==> s.fwd.p1.Ready()) && (r1 ==> s.back.p0.Ready()) && !fault
       case Interrupted => s.interrupts > 0 && !fault
       case PollFailed => fault
       case Got(d, _) => BridgeHop(s, d, e, fault)
       case Ended(d) => BridgeHop(s, d, e, fault)
       case Put(d, _) => BridgeHop(s, d, e, fault)
       case PutFailed(d) => BridgeHop(s, d, e, fault)
       case Shut(d) => BridgeHop(s, d, e, fault)
  }

  predicate BridgeHop(s: System, d: nat, e: Event, fault: bool) {
    if d == 0 then HopEnabled(s.fwd.p1, s.fwd.p2, e, fault) else HopEnabled(s.back.p0, s.back.p1, e, fault)
  }

  function BridgeStep(s: System, e: Event, fault: bool): System
    requires BridgeEnabled(s, e, fault)
  {
    var b := BridgeSpec.Advance(s.bridge, e).value;
    if b.mode.Aborted? then
      // the process is gone: both its outputs end here
      s.(bridge := b,
         fwd := s.fwd.(p2 := s.fwd.p2.(eof := true)), back := s.back.(p1 := s.back.p1.(eof := true)))
    else if e.Polled? then s.(bridge := b)
    else if e.Interrupted? then s.(bridge := b, interrupts := s.interrupts - 1)
    else if e.dir == 0 then s.(bridge := b, fwd := BridgeForward(s.fwd, e), fwdFaults := Note(s.fwdFaults, e, fault))
    else s.(bridge := b, back := BridgeBackward(s.back, e), backFaults := Note(s.backFaults, e, fault))
  }

  function BridgeForward(p: Path, e: Event): Path {
    p.(p1 := HopSrc(p.p1, e), p2 := HopDst(p.p2, e))
  }

  function BridgeBackward(p: Path, e: Event): Path {
    p.(p0 := HopSrc(p.p0, e), p1 := HopDst(p.p1, e))
  }

  // ------------------------------------------------------------ the system

  function Count(s: System): nat {
    (if s.up.Done? then 1 else 0) + (if s.down.Done? then 1 else 0)
  }

  predicate Enabled(s: System, a: Action) {
    match a
    case UpDo(e, fault) => CopierEnabled(s.up, s.fwd.p0, s.fwd.p1, e, fault)
    case DownDo(e, fault) => CopierEnabled(s.down, s.back.p1, s.back.p2, e, fault)
    case BridgeDo(e, fault) => BridgeEnabled(s, e, fault)
    case Join => s.joined < Count(s)                       // receive from the done channel
    case CloseGuest => s.joined == 2 && !s.guestClosed     // deferred, last in first out
    case CloseClient => s.guestClosed && !s.clientClosed
    case _ => PeerEnabled(if a.forward then s.fwd else s.back, a)
  }

  function Apply(s: System, a: Action): System
    requires Enabled(s, a)
  {
    match a
    case UpDo(e, fault) =>
      s.(up := CopierSpec.Advance(s.up, e).value, fwdFaults := Note(s.fwdFaults, e, fault),
         fwd := s.fwd.(p0 := HopSrc(s.fwd.p0, e), p1 := HopDst(s.fwd.p1, e)))
    case DownDo(e, fault) =>
      s.(down := CopierSpec.Advance(s.down, e).value, backFaults := Note(s.backFaults, e, fault),
         back := s.back.(p1 := HopSrc(s.back.p1, e), p2 := HopDst(s.back.p2, e)))
    case BridgeDo(e, fault) => BridgeStep(s, e, fault)
    case Join => s.(joined := s.joined + 1)
    case CloseGuest => s.(guestClosed := true)
    case CloseClient => s.(clientClosed := true)
    case _ =>
      if a.forward then s.(fwd := PeerStep(s.fwd, a)) else s.(back := PeerStep(s.back, a))
  }

  ghost predicate Run(s: System, actions: seq<Action>, s': System)
    decreases |actions|
  {
    if actions == [] then s' == s
    else Enabled(s, actions[0]) && Run(Apply(s, actions[0]), actions[1..], s')
  }

  // ------------------------------------------------------------ invariant

  // One hop between two pipes.  Its buffer holds `pending`; it is `kept` while it
  // has dropped nothing it read, `ended` once it has seen the end of its source,
  // and `whole` if it is kept and saw no end but the real one.
  ghost predicate HopOk(src: Pipe, dst: Pipe, pending: seq<byte>, kept: bool, ended: bool, whole: bool) {
    && src.Ok() && dst.Ok()
    && (kept ==> dst.all + pending == src.Read())
    && dst.all <= src.Read()
    && (kept && ended ==> pending == [])
    && (kept && dst.eof ==> ended)
    && (whole && ended ==> src.Drained())
  }

  function CopierPending(c: CopierSpec.Copier): seq<byte> {
    if c.Writing? then c.chunk else []
  }

  ghost predicate CopierOk(c: CopierSpec.Copier, src: Pipe, dst: Pipe, f: Faults) {
    && HopOk(src, dst, CopierPending(c), c.Reading? || c.Writing? || !f.lost, c.Closing? || c.Done?,
             !f.cut && !f.lost)
    && (c.Writing? ==> c.chunk != [])
  }

  // The bridge has not died with direction d still open.
  predicate BridgeKept(b: BridgeSpec.BridgeState, d: nat) {
    b.mode.Aborted? ==> BridgeSpec.Closed(b, d)
  }

  // The bridge's account of direction d, as pipes.
  ghost predicate BridgeHopOk(b: BridgeSpec.BridgeState, d: nat, src: Pipe, dst: Pipe, f: Faults) {
    && HopOk(src, dst, BridgeSpec.Pending(b, d), BridgeKept(b, d), BridgeEnded(b, d), BridgeKept(b, d) && !f.cut)
    && (dst.eof <==> b.mode.Aborted? || BridgeSpec.Closed(b, d))
  }

  ghost predicate BridgeOk(s: System) {
    && BridgeSpec.Consistent(s.bridge)
    && BridgeHopOk(s.bridge, 0, s.fwd.p1, s.fwd.p2, s.fwdFaults)
    && BridgeHopOk(s.bridge, 1, s.back.p0, s.back.p1, s.backFaults)
  }

  // A direction poll reported ready stays ready until it is served.
  ghost predicate ReadyOk(s: System) {
    match s.bridge.mode
    case Poised(r0, r1) => (r0 ==> s.fwd.p1.Ready()) && (r1 ==> s.back.p0.Ready())
    case Writing(_, _, r1) => r1 ==> s.back.p0.Ready()
    case Shutting(_, r1) => r1 ==> s.back.p0.Ready()
    case _ => true
  }

  predicate BridgeEnded(b: BridgeSpec.BridgeState, d: nat) {
    BridgeSpec.Closed(b, d) || (b.mode.Shutting? && b.mode.dir == d)
  }

  ghost predicate PathOk(p: Path) {
    && p.p0.Ok() && p.p1.Ok() && p.p2.Ok()
    && (p.p0.eof ==> p.script == [])
    && (p.seenEof ==> p.p2.Drained())
  }

  ghost predicate MainOk(s: System) {
    && s.joined <= Count(s)
    && (s.guestClosed ==> s.joined == 2)
    && (s.clientClosed ==> s.guestClosed)
    && (s.up.Done? <==> s.fwd.p1.eof)
    && (s.down.Done? <==> s.back.p2.eof)
  }

  ghost predicate Inv(s: System) {
    && PathOk(s.fwd) && PathOk(s.back)
    && CopierOk(s.up, s.fwd.p0, s.fwd.p1, s.fwdFaults)
    && CopierOk(s.down, s.back.p1, s.back.p2, s.backFaults)
    && BridgeOk(s) && MainOk(s)
  }

  lemma InitInv(s: System)
    requires Init(s)
    ensures Inv(s)
  {
  }

  // ------------------------------------------------------------ preservation

  lemma SenderKeepsInv(s: System, a: Action)
    requires Inv(s) && Enabled(s, a) && (a.Send? || a.HalfClose?)
    ensures Inv(Apply(s, a))
  {
  }

  lemma ReceiverKeepsInv(s: System, a: Action)
    requires Inv(s) && Enabled(s, a) && (a.Receive? || a.SeeEof?)
    ensures Inv(Apply(s, a))
  {
  }

  lemma MainKeepsInv(s: System, a: Action)
    requires Inv(s) && Enabled(s, a) && (a.Join? || a.CloseGuest? || a.CloseClient?)
    ensures Inv(Apply(s, a))
  {
  }

  lemma CopierKeepsHop(c: CopierSpec.Copier, src: Pipe, dst: Pipe, e: Event, fault: bool, f: Faults)
    requires CopierOk(c, src, dst, f) && CopierEnabled(c, src, dst, e, fault)
    ensures CopierOk(CopierSpec.Advance(c, e).value, HopSrc(src, e), HopDst(dst, e), Note(f, e, fault))
  {
  }

  lemma UpKeepsInv(s: System, a: Action)
    requires Inv(s) && Enabled(s, a) && a.UpDo?
    ensures Inv(Apply(s, a))
  {
    CopierKeepsHop(s.up, s.fwd.p0, s.fwd.p1, a.e, a.fault, s.fwdFaults);
  }

  lemma DownKeepsInv(s: System, a: Action)
    requires Inv(s) && Enabled(s, a) && a.DownDo?
    ensures Inv(Apply(s, a))
  {
    CopierKeepsHop(s.down, s.back.p1, s.back.p2, a.e, a.fault, s.backFaults);
  }

  predicate IsHop(e: Event) {
    e.Got? || e.Ended? || e.Put? || e.Shut?
  }

  lemma BridgeKeepsHop(b: BridgeSpec.BridgeState, d: nat, src: Pipe, dst: Pipe, e: Event, fault: bool, f: Faults)
    requires BridgeSpec.Consistent(b) && d <= 1 && BridgeHopOk(b, d, src, dst, f)
    requires BridgeSpec.Advance(b, e).Some? && IsHop(e) && e.dir == d && HopEnabled(src, dst, e, fault)
    ensures BridgeHopOk(BridgeSpec.Advance(b, e).value, d, HopSrc(src, e), HopDst(dst, e), Note(f, e, fault))
  {
    if BridgeSpec.Closed(b, d) { BridgeSpec.ClosedIsIdle(b, e, d); }
  }

  lemma BridgeKeepsOtherHop(b: BridgeSpec.BridgeState, d: nat, src: Pipe, dst: Pipe, e: Event, f: Faults)
    requires BridgeSpec.Consistent(b) && d <= 1 && BridgeHopOk(b, d, src, dst, f)
    requires BridgeSpec.Advance(b, e).Some? && IsHop(e) && e.dir != d
    ensures BridgeHopOk(BridgeSpec.Advance(b, e).value, d, src, dst, f)
  {
  }

  // The copiers next to the bridge are not disturbed by what it reads and writes.
  lemma UpUndisturbed(c: CopierSpec.Copier, src: Pipe, dst: Pipe, e: Event, fault: bool, f: Faults)
    requires CopierOk(c, src, dst, f) && IsHop(e) && (e.Got? ==> dst.Offers(e.chunk))
    ensures CopierOk(c, src, HopSrc(dst, e), Note(f, e, fault))
  {
  }

  lemma DownUndisturbed(c: CopierSpec.Copier, src: Pipe, dst: Pipe, e: Event, fault: bool, f: Faults)
    requires CopierOk(c, src, dst, f) && IsHop(e) && (e.Put? || e.Shut? ==> !src.eof)
    ensures CopierOk(c, HopDst(src, e), dst, Note(f, e, fault))
  {
  }

  // A direction the bridge writes or shuts is open.
  lemma WritesOpen(b: BridgeSpec.BridgeState, e: Event)
    requires BridgeSpec.Consistent(b) && BridgeSpec.Advance(b, e).Some? && IsHop(e)
    ensures e.dir <= 1 && !BridgeSpec.Closed(b, e.dir)
    ensures !b.mode.Aborted? && !BridgeSpec.Advance(b, e).value.mode.Aborted?
  {
  }

  lemma BridgeForwardKeepsInv(s: System, a: Action)
    requires Inv(s) && Enabled(s, a) && a.BridgeDo? && IsHop(a.e) && a.e.dir == 0
    ensures Inv(Apply(s, a))
  {
    var e, s' := a.e, Apply(s, a);
    assert BridgeHopOk(s.bridge, 0, s.fwd.p1, s.fwd.p2, s.fwdFaults);
    assert BridgeHopOk(s.bridge, 1, s.back.p0, s.back.p1, s.backFaults);
    WritesOpen(s.bridge, e);
    assert s'.bridge == BridgeSpec.Advance(s.bridge, e).value && s'.fwd == BridgeForward(s.fwd, e) && s'.back == s.back;
    assert BridgeOk(s') by {
      BridgeSpec.AdvanceConsistent(s.bridge, e);
      BridgeKeepsHop(s.bridge, 0, s.fwd.p1, s.fwd.p2, e, a.fault, s.fwdFaults);
      BridgeKeepsOtherHop(s.bridge, 1, s.back.p0, s.back.p1, e, s.backFaults);
    }
    UpUndisturbed(s.up, s.fwd.p0, s.fwd.p1, e, a.fault, s.fwdFaults);
  }

  lemma BridgeBackwardKeepsInv(s: System, a: Action)
    requires Inv(s) && Enabled(s, a) && a.BridgeDo? && IsHop(a.e) && a.e.dir != 0
    ensures Inv(Apply(s, a))
  {
    var e, s' := a.e, Apply(s, a);
    assert BridgeHopOk(s.bridge, 0, s.fwd.p1, s.fwd.p2, s.fwdFaults);
    assert BridgeHopOk(s.bridge, 1, s.back.p0, s.back.p1, s.backFaults);
    WritesOpen(s.bridge, e);
    assert s'.bridge == BridgeSpec.Advance(s.bridge, e).value;
    assert s'.fwd == s.fwd && s'.back == BridgeBackward(s.back, e);
    assert BridgeOk(s') by {
      BridgeSpec.AdvanceConsistent(s.bridge, e);
      BridgeKeepsOtherHop(s.bridge, 0, s.fwd.p1, s.fwd.p2, e, s.fwdFaults);
      BridgeKeepsHop(s.bridge, 1, s.back.p0, s.back.p1, e, a.fault, s.backFaults);
    }
    DownUndisturbed(s.down, s.back.p1, s.back.p2, e, a.fault, s.backFaults);
  }

  lemma BridgePollsKeepInv(s: System, a: Action)
    requires Inv(s) && Enabled(s, a) && a.BridgeDo? && (a.e.Polled? || a.e.Interrupted?)
    ensures Inv(Apply(s, a))
  {
  }

  // A dying bridge ends its outputs; a direction closed before has lost nothing.
  lemma AbortKeepsHop(b: BridgeSpec.BridgeState, d: nat, src: Pipe, dst: Pipe, e: Event, f: Faults)
    requires BridgeSpec.Consistent(b) && d <= 1 && BridgeHopOk(b, d, src, dst, f)
    requires BridgeSpec.Advance(b, e).Some? && (e.PollFailed? || e.PutFailed?)
    ensures BridgeHopOk(BridgeSpec.Advance(b, e).value, d, src, dst.(eof := true), f)
  {
  }

  lemma EndedSourceKeepsCopier(c: CopierSpec.Copier, src: Pipe, dst: Pipe, f: Faults)
    requires CopierOk(c, src, dst, f)
    ensures CopierOk(c, src.(eof := true), dst, f)
  {
  }

  // The bridge dies: all that changes.
  lemma BridgeDies(s: System, a: Action)
    requires Enabled(s, a) && a.BridgeDo? && (a.e.PollFailed? || a.e.PutFailed?)
    ensures Apply(s, a) == s.(bridge := BridgeSpec.Advance(s.bridge, a.e).value,
                              fwd := s.fwd.(p2 := s.fwd.p2.(eof := true)),
                              back := s.back.(p1 := s.back.p1.(eof := true)))
  {
  }

  lemma BridgeAbortKeepsInv(s: System, a: Action)
    requires Inv(s) && Enabled(s, a) && a.BridgeDo? && (a.e.PollFailed? || a.e.PutFailed?)
    ensures Inv(Apply(s, a))
  {
    BridgeDies(s, a);
    BridgeSpec.AdvanceConsistent(s.bridge, a.e);
    AbortKeepsHop(s.bridge, 0, s.fwd.p1, s.fwd.p2, a.e, s.fwdFaults);
    AbortKeepsHop(s.bridge, 1, s.back.p0, s.back.p1, a.e, s.backFaults);
    EndedSourceKeepsCopier(s.down, s.back.p1, s.back.p2, s.backFaults);
  }

  lemma InvKept(s: System, a: Action)
    requires Inv(s) && Enabled(s, a)
    ensures Inv(Apply(s, a))
  {
    match a
    case UpDo(_, _) => UpKeepsInv(s, a);
    case DownDo(_, _) => DownKeepsInv(s, a);
    case BridgeDo(e, _) =>
      if IsHop(e) && e.dir == 0 { BridgeForwardKeepsInv(s, a); }
      else if IsHop(e) { BridgeBackwardKeepsInv(s, a); }
      else if e.Polled? || e.Interrupted? { BridgePollsKeepInv(s, a); }
      else { BridgeAbortKeepsInv(s, a); }
    case Join => MainKeepsInv(s, a);
    case CloseGuest => MainKeepsInv(s, a);
    case CloseClient => MainKeepsInv(s, a);
    case Send(_, _) => SenderKeepsInv(s, a);
    case HalfClose(_) => SenderKeepsInv(s, a);
    case _ => ReceiverKeepsInv(s, a);
  }

  lemma BridgeKeepsReady(s: System, a: Action)
    requires BridgeOk(s) && ReadyOk(s) && Enabled(s, a) && a.BridgeDo?
    ensures ReadyOk(Apply(s, a))
  {
    if IsHop(a.e) { WritesOpen(s.bridge, a.e); }
  }

  lemma OthersKeepReady(s: System, a: Action)
    requires ReadyOk(s) && Enabled(s, a) && !a.BridgeDo?
    ensures ReadyOk(Apply(s, a))
  {
    assert Apply(s, a).bridge == s.bridge;
  }
}
