/** bridge.c: the relay between the guest process's stdin/stdout and a socket,
    each direction torn down on its own end of file, over one shared buffer. */
module Bridge {
  import opened Prelude
  import opened Streams
  import opened BridgeSpec

  // What poll(2) reports; interrupts is how many more times it will be interrupted.
  class Poller {
    const kernel: Kernel
    var interrupts: nat

    constructor (kernel: Kernel, interrupts: nat)
      ensures this.kernel == kernel && this.interrupts == interrupts
    {
      this.kernel, this.interrupts := kernel, interrupts;
    }

    // Waits until an enabled descriptor is readable, is hung up or has failed.
    // A disabled descriptor (-1) reports nothing; polling none would never end.
    method Poll(fd0: int, fd1: int) returns (r: int, eintr: bool, ready0: bool, ready1: bool)
      requires fd0 != -1 || fd1 != -1
      modifies this, kernel
      ensures r != 0
      ensures r > 0 ==>
        && (ready0 ==> fd0 != -1) && (ready1 ==> fd1 != -1) && (ready0 || ready1)
        && interrupts == old(interrupts)
        && kernel.events == old(kernel.events) + [Polled(ready0, ready1)]
      ensures r < 0 && eintr ==> interrupts < old(interrupts) && kernel.events == old(kernel.events) + [Interrupted]
      ensures r < 0 && !eintr ==> kernel.events == old(kernel.events) + [PollFailed]
    {
      r, eintr, ready0, ready1 := *, *, *, *;
      if r <= 0 {
        r := -1;
        eintr := eintr && interrupts > 0;
        if eintr { interrupts := interrupts - 1; }
        kernel.events := kernel.events + [if eintr then Interrupted else PollFailed];
      } else {
        ready0 := ready0 && fd0 != -1;
        ready1 := ready1 && fd1 != -1;
        if !ready0 && !ready1 { ready0, ready1 := fd0 != -1, fd1 != -1; }
        kernel.events := kernel.events + [Polled(ready0, ready1)];
      }
    }
  }

  ghost predicate InMode(kernel: Kernel, open0: bool, open1: bool, mode: Mode)
    reads kernel
  {
    Replay(kernel.events) == Some(BridgeState(open0, open1, mode))
  }

  // The mode after a direction has been served.
  function Served(ready1: bool): Mode {
    if ready1 then Poised(false, true) else Top
  }

  // Writing w of the remaining bytes, as the machine sees it.
  lemma PutAccepted(events: seq<Event>, b: BridgeState, w: nat)
    requires Replay(events) == Some(b) && b.mode.Writing? && 0 < w <= |b.mode.chunk|
    ensures var m := b.mode;
      Replay(events + [Put(m.dir, m.chunk[..w])]) ==
      Some(b.(mode := if w < |m.chunk| then m.(chunk := m.chunk[w..]) else Served(m.ready1)))
  {
    ReplaySnoc(events, Put(b.mode.dir, b.mode.chunk[..w]));
  }

  // The mode when bytes off..n of the buffer are still to be written.
  ghost function Rest(b: BridgeState, buf: array<byte>, off: nat, n: nat): BridgeState
    requires b.mode.Writing? && off <= n <= buf.Length
    reads buf
  {
    b.(mode := if off < n then b.mode.(chunk := buf[off..n]) else Served(b.mode.ready1))
  }

  method WriteSome(sink: Sink, buf: array<byte>, off: nat, n: nat, ghost b: BridgeState, ghost before: seq<byte>)
    returns (w: int)
    requires !sink.shut && off < n <= buf.Length && b.mode.Writing? && b.mode.dir == sink.dir
    requires Replay(sink.kernel.events) == Some(Rest(b, buf, off, n)) && sink.got == before + buf[..off]
    modifies sink, sink.kernel
    ensures !sink.shut && w <= n - off
    ensures w <= 0 ==> sink.got == old(sink.got) && Replay(sink.kernel.events) == Some(b.(mode := Aborted))
    ensures w > 0 ==> sink.got == before + buf[..off + w]
    ensures w > 0 ==> Replay(sink.kernel.events) == Some(Rest(b, buf, off + w, n))
  {
    ghost var events := sink.kernel.events;
    w := sink.Write(buf, off, n);
    if w <= 0 {
      ReplaySnoc(events, PutFailed(sink.dir));
    } else {
      PutAccepted(events, Replay(events).value, w);
      Slide(buf, off, w, n);
    }
  }

  /** write_all: all n bytes in order, or a failure after a prefix of them. */
  method WriteAll(sink: Sink, buf: array<byte>, n: nat, ghost b: BridgeState) returns (ok: bool, ghost written: nat)
    requires !sink.shut && 0 < n <= buf.Length && b.mode.Writing? && b.mode.dir == sink.dir
    requires Replay(sink.kernel.events) == Some(Rest(b, buf, 0, n))
    modifies sink, sink.kernel
    ensures !sink.shut
    ensures written <= n && (ok <==> written == n)
    ensures sink.got == old(sink.got) + buf[..written]
    ensures Replay(sink.kernel.events) == Some(b.(mode := if ok then Served(b.mode.ready1) else Aborted))
  {
    var off := 0;
    while off < n
      invariant off <= n && !sink.shut
      invariant sink.got == old(sink.got) + buf[..off]
      invariant Replay(sink.kernel.events) == Some(Rest(b, buf, off, n))
      decreases n - off
    {
      var w := WriteSome(sink, buf, off, n, b, old(sink.got));
      if w <= 0 {
        return false, off;
      }
      off := off + w;
    }
    return true, n;
  }

  /** One direction with everything it has moved so far: the sink holds exactly
      what the source has yielded, and is shut exactly when the direction's
      descriptor is disabled; shut without a read error means nothing is left. */
  ghost predicate Flow(fd: int, source: Source, sink: Sink, all: seq<byte>)
    reads source, sink
  {
    && sink.got + source.left == all
    && (fd == -1 <==> sink.shut)
    && (sink.shut && !source.failed ==> source.left == [])
  }

  // What a direction has kept even if the relay aborted in the middle of it.
  ghost predicate Honest(source: Source, sink: Sink, all: seq<byte>)
    reads source, sink
  {
    && sink.got <= all
    && (sink.shut && !source.failed ==> sink.got == all)
  }

  // Everything is delivered or was left unread; it is delivered whole exactly when
  // nothing was left, and only a failed read leaves anything.
  ghost predicate Accounted(source: Source, sink: Sink, all: seq<byte>)
    reads source, sink
  {
    && sink.got + source.left == all
    && (sink.got == all <==> source.left == [])
    && (source.left != [] ==> source.failed)
  }

  lemma FlowIsHonest(fd: int, source: Source, sink: Sink, all: seq<byte>)
    requires Flow(fd, source, sink, all)
    ensures Honest(source, sink, all)
  {
    if source.left == [] { assert sink.got == all; }
  }

  /** One ready direction: read once, then forward the end of file, or write the
      whole chunk, or fail. */
  method Forward(fd: int, source: Source, sink: Sink, buf: array<byte>, ghost all: seq<byte>,
                 ghost open0: bool, ghost open1: bool, ghost ready1: bool)
    returns (fd': int, ok: bool)
    requires fd != -1 && buf.Length == BUF_SIZE && Flow(fd, source, sink, all)
    requires source.kernel == sink.kernel && source.dir == sink.dir <= 1
    requires sink.dir == 0 ==> InMode(sink.kernel, open0, open1, Poised(true, ready1))
    requires sink.dir == 1 ==> InMode(sink.kernel, open0, open1, Poised(false, true)) && !ready1
    modifies source, sink, buf, sink.kernel
    ensures ok ==> Flow(fd', source, sink, all)
    ensures ok ==> (fd' == fd && |source.left| < |old(source.left)|) || (fd' == -1 && source.left == old(source.left))
    ensures ok && sink.dir == 0 ==> InMode(sink.kernel, open0 && fd' != -1, open1, Served(ready1))
    ensures ok && sink.dir == 1 ==> InMode(sink.kernel, open0, open1 && fd' != -1, Served(ready1))
    ensures !ok ==> InMode(sink.kernel, open0, open1, Aborted)
    ensures Honest(source, sink, all)
  {
    ghost var events0 := sink.kernel.events;
    var n := source.Read(buf);
    ghost var events1 := sink.kernel.events;
    if n <= 0 {
      ReplaySnoc(events0, Ended(sink.dir));
      sink.Shut();
      ReplaySnoc(events1, Event.Shut(sink.dir));
      FlowIsHonest(-1, source, sink, all);
      return -1, true;
    }
    ReplaySnoc(events0, Got(sink.dir, buf[..n]));
    ghost var chunk := buf[..n];
    ghost var before := old(sink.got);
    assert all == before + (chunk + source.left);
    ghost var k;
    ok, k := WriteAll(sink, buf, n, BridgeState(open0, open1, Writing(sink.dir, chunk, ready1)));
    fd' := fd;
    if ok {
      assert before + chunk + source.left == all;
      FlowIsHonest(fd', source, sink, all);
    } else {
      assert buf[..k] == chunk[..k];
      assert all[..|sink.got|] == sink.got;
    }
  }

  /** The relay loop, run to its end for every finite pair of streams, every
      choice of chunk sizes and readiness, and finitely many interrupted polls.
      Its system calls are ones the bridge machine accepts.  Unless a write or
      poll failed it half-closes both ends, and each direction has then delivered
      all its stream but what a failed read left behind, hence the whole of it
      exactly when nothing was left there; whatever happens, each output is a
      prefix of its input and without a failed read is shut only after all of it. */
  method Relay(sock: int, stdin: Source, sockIn: Source, sockOut: Sink, stdout: Sink, poller: Poller, kernel: Kernel)
    returns (aborted: bool)
    requires sock >= 0
    requires stdin.kernel == sockIn.kernel == sockOut.kernel == stdout.kernel == poller.kernel == kernel
    requires stdin.dir == sockOut.dir == 0 && sockIn.dir == stdout.dir == 1
    requires sockOut.got == [] && !sockOut.shut && stdout.got == [] && !stdout.shut
    requires !stdin.failed && !sockIn.failed && kernel.events == []
    modifies stdin, sockIn, sockOut, stdout, poller, kernel
    ensures Replay(kernel.events).Some?
    ensures aborted <==> Replay(kernel.events).value.mode.Aborted?
    ensures !aborted ==> sockOut.shut && stdout.shut
    ensures !aborted ==> Accounted(stdin, sockOut, old(stdin.left)) && Accounted(sockIn, stdout, old(sockIn.left))
    ensures Honest(stdin, sockOut, old(stdin.left)) && Honest(sockIn, stdout, old(sockIn.left))
  {
    ghost var all0, all1 := stdin.left, sockIn.left;
    var buf := new byte[BUF_SIZE];
    var fd0, fd1 := 0, sock;
    while true
      invariant fresh(buf) && buf.Length == BUF_SIZE && (fd1 == -1 || fd1 == sock)
      invariant Flow(fd0, stdin, sockOut, all0) && Flow(fd1, sockIn, stdout, all1)
      invariant InMode(kernel, fd0 != -1, fd1 != -1, Top)
      decreases |stdin.left| + |sockIn.left| + (if fd0 == -1 then 0 else 1) + (if fd1 == -1 then 0 else 1),
                poller.interrupts
    {
      if fd0 == -1 && fd1 == -1 { break; }
      ghost var events := kernel.events;
      var r, eintr, ready0, ready1 := poller.Poll(fd0, fd1);
      if r < 0 {
        ReplaySnoc(events, if eintr then Interrupted else PollFailed);
        if eintr { continue; }
        FlowIsHonest(fd0, stdin, sockOut, all0);
        FlowIsHonest(fd1, sockIn, stdout, all1);
        return true;
      }
      ReplaySnoc(events, Polled(ready0, ready1));
      ghost var open1 := fd1 != -1;
      if fd0 != -1 && ready0 {
        var ok;
        fd0, ok := Forward(fd0, stdin, sockOut, buf, all0, true, open1, ready1);
        if !ok {
          FlowIsHonest(fd1, sockIn, stdout, all1);
          return true;
        }
      }
      if fd1 != -1 && ready1 {
        var ok;
        fd1, ok := Forward(fd1, sockIn, stdout, buf, all1, fd0 != -1, true, false);
        if !ok {
          FlowIsHonest(fd0, stdin, sockOut, all0);
          return true;
        }
      }
    }
    FlowIsHonest(fd0, stdin, sockOut, all0);
    FlowIsHonest(fd1, sockIn, stdout, all1);
    return false;
  }
}
