/** What one of the proxy's two goroutines may do next: copy until its source
    ends or a write fails, then half-close its destination and report done. */
module CopierSpec {
  import opened Prelude
  import opened Streams

  const COPY_SIZE: nat := 32768  // io.Copy's buffer

  datatype Copier = Reading | Writing(chunk: seq<byte>) | Closing | Done

  function Advance(c: Copier, e: Event): Option<Copier> {
    match e
    case Got(_, chunk) => if c.Reading? && 0 < |chunk| <= COPY_SIZE then Some(Writing(chunk)) else None
    case Ended(_) => if c.Reading? then Some(Closing) else None
    case Put(_, bytes) =>
      if c.Writing? && bytes != [] && bytes <= c.chunk then
        Some(if bytes == c.chunk then Reading else Writing(c.chunk[|bytes|..]))
      else None
    case PutFailed(_) => if c.Writing? then Some(Closing) else None
    case Shut(_) => if c.Closing? then Some(Done) else None
    case _ => None
  }

  function Replay(events: seq<Event>): Option<Copier> {
    if events == [] then Some(Reading)
    else
      match Replay(events[..|events| - 1])
      case None => None
      case Some(c) => Advance(c, events[|events| - 1])
  }

  lemma ReplaySnoc(events: seq<Event>, e: Event)
    requires Replay(events).Some?
    ensures Replay(events + [e]) == Advance(Replay(events).value, e)
  {
    assert (events + [e])[..|events|] == events;
  }

  // Writing w more bytes of the chunk.
  lemma PutAccepted(events: seq<Event>, dir: nat, chunk: seq<byte>, w: nat)
    requires Replay(events) == Some(Writing(chunk)) && 0 < w <= |chunk|
    ensures Replay(events + [Put(dir, chunk[..w])]) == Some(if w < |chunk| then Writing(chunk[w..]) else Reading)
  {
    ReplaySnoc(events, Put(dir, chunk[..w]));
  }

  /** The half-close is forwarded exactly once, as the very last thing. */
  lemma {:induction false} ShutOnceAtTheEnd(events: seq<Event>, i: nat)
    requires Replay(events).Some? && i < |events| && events[i].Shut?
    ensures i == |events| - 1 && Replay(events) == Some(Done)
    decreases |events|
  {
    if i < |events| - 1 {
      ShutOnceAtTheEnd(events[..|events| - 1], i);
    }
  }
}
