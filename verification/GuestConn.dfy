/** guestConn: a net.Conn over the two socket handles of a guest process.  Its
    calls are also told as the events of a copier, which is how the proxy uses
    a connection. */
module GuestConn {
  import opened Prelude
  import opened Streams
  import opened CopierSpec

  datatype IOError = EOF | ClosedPipe | RecvFailed

  // The operations on the connection's own sockets and process reference.
  datatype Op = ShutdownWrite | CloseStdin | CloseStdout | ReleaseProcess

  class Conn {
    const stdin: Sink      // write here: the guest process's stdin
    const stdout: Source   // read here: the guest process's stdout
    var closeOnce: bool
    var writeCloseOnce: bool
    var ops: seq<Op>

    constructor (stdin: Sink, stdout: Source)
      requires !stdin.shut
      ensures this.stdin == stdin && this.stdout == stdout && Valid() && !closeOnce && ops == []
    {
      this.stdin, this.stdout := stdin, stdout;
      closeOnce, writeCloseOnce, ops := false, false, [];
    }

    // The guards say what has been done.
    ghost predicate Valid()
      reads this, stdin
    {
      && (writeCloseOnce <==> stdin.shut)
      && ops == (if closeOnce then [ShutdownWrite, CloseStdin, CloseStdout, ReleaseProcess]
                 else if writeCloseOnce then [ShutdownWrite] else [])
      && (closeOnce ==> writeCloseOnce)
    }

    /** Read never loses, repeats or reorders a byte.  Without a receive error it
        reports end of file exactly when the buffer is empty or the peer's bytes
        have all been read: only for a non-empty buffer does EOF mean the end. */
    method Read(b: array<byte>) returns (n: nat, err: Option<IOError>)
      modifies stdout, stdout.kernel, b
      ensures n <= |old(stdout.left)| && n <= b.Length
      ensures b[..n] == old(stdout.left)[..n] && stdout.left == old(stdout.left)[n..]
      ensures stdout.kernel.events == old(stdout.kernel.events) +
        if b.Length == 0 then [] else if err.None? then [Got(stdout.dir, b[..n])] else [Ended(stdout.dir)]
      ensures err.None? ==> n > 0
      ensures err.Some? ==> n == 0 && (err.value.EOF? || err.value.RecvFailed?)
      ensures stdout.failed == (old(stdout.failed) || err == Some(RecvFailed))
      ensures err != Some(RecvFailed) ==> (err == Some(EOF) <==> b.Length == 0 || old(stdout.left) == [])
    {
      if b.Length == 0 {  // recv returns 0 without a call
        return 0, Some(EOF);
      }
      var r := stdout.Read(b);
      if r < 0 { return 0, Some(RecvFailed); }
      if r == 0 { return 0, Some(EOF); }
      return r, None;
    }

    // A copier with bytes off..len of b still to write.
    ghost predicate Copying(b: array<byte>, off: nat, len: nat)
      requires off <= len <= b.Length
      reads stdin, stdin.kernel, b
    {
      Replay(stdin.kernel.events) == Some(if off < len then Writing(b[off..len]) else Reading)
    }

    // One send of Write's loop.
    method SendSome(b: array<byte>, off: nat, len: nat, ghost before: seq<byte>) returns (n: int)
      requires off < len <= b.Length && stdin.got == before + b[..off]
      modifies stdin, stdin.kernel
      ensures stdin.shut == old(stdin.shut) && n <= len - off && (stdin.shut ==> n <= 0)
      ensures stdin.got == before + b[..off + if n > 0 then n else 0]
      ensures old(Copying(b, off, len)) ==>
        if n > 0 then Copying(b, off + n, len) else Replay(stdin.kernel.events) == Some(Closing)
    {
      ghost var events := stdin.kernel.events;
      ghost var copying := Copying(b, off, len);
      n := stdin.Write(b, off, len);
      if n > 0 {
        if copying { PutAccepted(events, stdin.dir, b[off..len], n); }
        Slide(b, off, n, len);
      } else if copying {
        ReplaySnoc(events, PutFailed(stdin.dir));
      }
    }

    /** Write hands over a prefix of the slice b[..len], in order, and succeeds
        exactly when that is all of it; the reported count is exact also on failure.
        After CloseWrite it hands over nothing and fails, unless the slice is empty.
        To a copier with just this chunk to write, its calls are the copier's own. */
    method Write(b: array<byte>, len: nat) returns (total: nat, err: Option<IOError>)
      requires len <= b.Length
      modifies stdin, stdin.kernel
      ensures stdin.shut == old(stdin.shut) && (stdin.shut ==> total == 0)
      ensures total <= len && (err.None? <==> total == len)
      ensures stdin.got == old(stdin.got) + b[..total]
      ensures len > 0 && Replay(old(stdin.kernel.events)) == Some(Writing(b[..len])) ==>
        Replay(stdin.kernel.events) == Some(if err.None? then Reading else Closing)
    {
      total := 0;
      assert b[0..len] == b[..len];
      ghost var copying := Copying(b, 0, len);
      while total < len
        invariant total <= len && stdin.shut == old(stdin.shut) && (stdin.shut ==> total == 0)
        invariant stdin.got == old(stdin.got) + b[..total]
        invariant copying ==> Copying(b, total, len)
        decreases len - total
      {
        var n := SendSome(b, total, len, old(stdin.got));
        if n <= 0 { return total, Some(ClosedPipe); }
        total := total + n;
      }
      return total, None;
    }

    /** CloseWrite shuts the write side once and leaves reading untouched. */
    method CloseWrite()
      requires Valid()
      modifies this, stdin, stdin.kernel
      ensures Valid() && writeCloseOnce && closeOnce == old(closeOnce)
      ensures stdin.got == old(stdin.got)
      ensures stdin.kernel.events ==
        old(stdin.kernel.events) + if old(writeCloseOnce) then [] else [Event.Shut(stdin.dir)]
    {
      if !writeCloseOnce {
        stdin.Shut();
        ops := ops + [ShutdownWrite];
        writeCloseOnce := true;
      }
    }

    /** Close, after any number of CloseWrite and Close calls, has shut the write
        side, closed both handles and asked for the release, once each, in that
        order. */
    method Close()
      requires Valid()
      modifies this, stdin, stdin.kernel
      ensures Valid() && closeOnce
      ensures stdin.kernel.events ==
        old(stdin.kernel.events) + if old(writeCloseOnce) then [] else [Event.Shut(stdin.dir)]
      ensures stdin.got == old(stdin.got)
    {
      if !closeOnce {
        CloseWrite();
        ops := ops + [CloseStdin];
        ops := ops + [CloseStdout];
        ops := ops + [ReleaseProcess];
        closeOnce := true;
      }
    }
  }
}
