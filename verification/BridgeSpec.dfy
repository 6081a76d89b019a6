/** What the bridge may do next, as a state machine over its system calls.  The
    loop of bridge.c is proved to make only such calls, and the end-to-end relay
    is built from the same machine. */
module BridgeSpec {
  import opened Prelude
  import opened Streams

  const BUF_SIZE: nat := 65536

  datatype Mode =
    | Top                                                  // about to poll, or to leave
    | Poised(ready0: bool, ready1: bool)                   // directions still to serve in this pass
    | Writing(dir: nat, chunk: seq<byte>, ready1: bool)    // chunk is in the shared buffer
    | Shutting(dir: nat, ready1: bool)                     // direction dir has seen its end of file
    | Aborted

  // open0: stdin is polled, the socket's write side is open; open1: the socket
  // is polled, stdout is open.
  datatype BridgeState = BridgeState(open0: bool, open1: bool, mode: Mode)

  const START := BridgeState(true, true, Top)

  function After(b: BridgeState, ready1: bool): BridgeState {
    b.(mode := if ready1 then Poised(false, true) else Top)
  }

  // The direction the bridge reads next; the first one comes first in every pass.
  predicate Next(b: BridgeState, dir: nat) {
    b.mode.Poised? && ((dir == 0 && b.mode.ready0) || (dir == 1 && b.mode.ready1 && !b.mode.ready0))
  }

  function Advance(b: BridgeState, e: Event): Option<BridgeState> {
    match e
    case Polled(r0, r1) =>
      if b.mode.Top? && (r0 || r1) && (r0 ==> b.open0) && (r1 ==> b.open1) then Some(b.(mode := Poised(r0, r1)))
      else None
    case Interrupted => if b.mode.Top? && (b.open0 || b.open1) then Some(b) else None
    case PollFailed => if b.mode.Top? && (b.open0 || b.open1) then Some(b.(mode := Aborted)) else None
    case Got(d, chunk) =>
      if Next(b, d) && 0 < |chunk| <= BUF_SIZE then Some(b.(mode := Writing(d, chunk, b.mode.ready1 && d == 0)))
      else None
    case Ended(d) => if Next(b, d) then Some(b.(mode := Shutting(d, b.mode.ready1 && d == 0))) else None
    case Put(d, bytes) =>
      if b.mode.Writing? && b.mode.dir == d && bytes != [] && bytes <= b.mode.chunk then
        if bytes == b.mode.chunk then Some(After(b, b.mode.ready1))
        else Some(b.(mode := b.mode.(chunk := b.mode.chunk[|bytes|..])))
      else None
    case PutFailed(d) => if b.mode.Writing? && b.mode.dir == d then Some(b.(mode := Aborted)) else None
    case Shut(d) =>
      if b.mode.Shutting? && b.mode.dir == d then
        Some(After(if d == 0 then b.(open0 := false) else b.(open1 := false), b.mode.ready1))
      else None
  }

  function Replay(events: seq<Event>): Option<BridgeState> {
    if events == [] then Some(START)
    else
      match Replay(events[..|events| - 1])
      case None => None
      case Some(b) => Advance(b, events[|events| - 1])
  }

  lemma ReplaySnoc(events: seq<Event>, e: Event)
    requires Replay(events).Some?
    ensures Replay(events + [e]) == Advance(Replay(events).value, e)
  {
    assert (events + [e])[..|events|] == events;
  }

  // ------------------------------------------------------------ what the machine guarantees

  // All bytes read, and all bytes written, in direction d.
  function Input(events: seq<Event>, d: nat): seq<byte> {
    if events == [] then []
    else
      var e := events[|events| - 1];
      Input(events[..|events| - 1], d) + if e.Got? && e.dir == d then e.chunk else []
  }

  function Output(events: seq<Event>, d: nat): seq<byte> {
    if events == [] then []
    else
      var e := events[|events| - 1];
      Output(events[..|events| - 1], d) + if e.Put? && e.dir == d then e.bytes else []
  }

  function Pending(b: BridgeState, d: nat): seq<byte> {
    if b.mode.Writing? && b.mode.dir == d then b.mode.chunk else []
  }

  ghost predicate Consistent(b: BridgeState) {
    match b.mode
    case Poised(r0, r1) => (r0 || r1) && (r0 ==> b.open0) && (r1 ==> b.open1)
    case Writing(d, chunk, r1) =>
      d <= 1 && chunk != [] && (if d == 0 then b.open0 else b.open1 && !r1) && (r1 ==> b.open1)
    case Shutting(d, r1) => d <= 1 && (if d == 0 then b.open0 else b.open1 && !r1) && (r1 ==> b.open1)
    case _ => true
  }

  lemma AdvanceConsistent(b: BridgeState, e: Event)
    requires Consistent(b) && Advance(b, e).Some?
    ensures Consistent(Advance(b, e).value)
  {
  }

  predicate Closed(b: BridgeState, d: nat) {
    if d == 0 then !b.open0 else !b.open1
  }

  // One call keeps the account of direction d, given what was read and written before.
  lemma AdvanceConserves(b: BridgeState, e: Event, d: nat, input: seq<byte>, output: seq<byte>)
    requires Consistent(b) && Advance(b, e).Some? && d <= 1
    requires input == output + Pending(b, d)
    ensures var b' := Advance(b, e).value;
      var input', output' :=
        input + (if e.Got? && e.dir == d then e.chunk else []), output + (if e.Put? && e.dir == d then e.bytes else []);
      && (!b'.mode.Aborted? ==> input' == output' + Pending(b', d))
      && output' <= input'
      && (Closed(b', d) <==> Closed(b, d) || e == Shut(d))
      && (e == Shut(d) ==> output' == input')
  {
  }

  // The part of ReplayConserves that goes by induction.
  ghost predicate Account(b: BridgeState, events: seq<Event>, d: nat) {
    && Consistent(b)
    && (!b.mode.Aborted? ==> Input(events, d) == Output(events, d) + Pending(b, d))
    && Output(events, d) <= Input(events, d)
    && (Closed(b, d) <==> Shut(d) in events)
    && (Shut(d) in events ==> Output(events, d) == Input(events, d))
  }

  /** For every accepted sequence of calls: what was read in a direction is what
      was written plus what the buffer still holds for it (nothing, when the
      machine is back at the top); a direction is closed exactly when its end was
      shut, and then everything read in it has been written. */
  lemma {:induction false} ReplayConserves(events: seq<Event>, d: nat)
    requires Replay(events).Some? && d <= 1
    ensures Account(Replay(events).value, events, d)
  {
    if events != [] {
      var front, e := events[..|events| - 1], events[|events| - 1];
      var b := Replay(front).value;
      ReplayConserves(front, d);
      AdvanceConsistent(b, e);
      AdvanceConserves(b, e, d, Input(front, d), Output(front, d));
      if Closed(b, d) { ClosedIsIdle(b, e, d); }
      assert events == front + [e];
    }
  }

  // A closed direction is neither read nor written.
  lemma ClosedIsIdle(b: BridgeState, e: Event, d: nat)
    requires Consistent(b) && Advance(b, e).Some? && d <= 1 && Closed(b, d)
    ensures !((e.Got? || e.Put? || e.PutFailed? || e.Ended? || e.Shut?) && e.dir == d)
  {
  }

  lemma {:induction false} ReplayPrefix(events: seq<Event>, i: nat)
    requires Replay(events).Some? && i < |events|
    ensures Replay(events[..i]).Some? && Advance(Replay(events[..i]).value, events[i]).Some?
    decreases |events|
  {
    if i < |events| - 1 {
      var front := events[..|events| - 1];
      ReplayPrefix(front, i);
      assert front[..i] == events[..i];
    }
  }

  /** The shared buffer is reused only when it is empty: before any read, in
      either direction, everything read so far in both has been written. */
  lemma BufferIsWrittenOut(events: seq<Event>, i: nat, d: nat)
    requires Replay(events).Some? && i < |events| && events[i].Got? && d <= 1
    ensures Input(events[..i], d) == Output(events[..i], d)
  {
    ReplayPrefix(events, i);
    ReplayConserves(events[..i], d);
  }

  /** poll is never entered with both directions disabled, and never reports a
      direction whose output has been shut. */
  lemma PollsAreLive(events: seq<Event>, i: nat)
    requires Replay(events).Some? && i < |events|
    requires events[i].Polled? || events[i].Interrupted? || events[i].PollFailed?
    ensures Shut(0) !in events[..i] || Shut(1) !in events[..i]
    ensures events[i].Polled? && events[i].ready0 ==> Shut(0) !in events[..i]
    ensures events[i].Polled? && events[i].ready1 ==> Shut(1) !in events[..i]
  {
    ReplayPrefix(events, i);
    ReplayConserves(events[..i], 0);
    ReplayConserves(events[..i], 1);
  }

  /** Nothing is written after the shut, and no direction is shut twice. */
  lemma {:induction false} ShutIsLast(events: seq<Event>, d: nat, i: nat, j: nat)
    requires Replay(events).Some? && d <= 1 && i < j < |events| && events[i] == Shut(d)
    ensures events[j] != Shut(d) && !(events[j].Put? && events[j].dir == d) && !(events[j].Got? && events[j].dir == d)
    decreases |events|
  {
    var front := events[..|events| - 1];
    if j < |events| - 1 {
      ShutIsLast(front, d, i, j);
    } else {
      ReplayConserves(front, d);
      assert front[i] == Shut(d);
    }
  }

  /** Immediate half-close: the call right after a direction's end of file shuts
      that direction's output, whatever the other direction still has to do. */
  lemma {:induction false} EndIsForwardedAtOnce(events: seq<Event>, i: nat)
    requires Replay(events).Some? && i + 1 < |events| && events[i].Ended?
    ensures events[i + 1] == Shut(events[i].dir)
    decreases |events|
  {
    var front := events[..|events| - 1];
    if i + 1 < |events| - 1 {
      EndIsForwardedAtOnce(front, i);
    } else {
      assert front[|front| - 1] == events[i];
    }
  }
}
