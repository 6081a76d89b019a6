/** The body of one of handleProxyConn's goroutines: io.Copy from one connection
    to the other, then CloseWrite on the destination.  Both ends are connections
    with the contracts of GuestConn; the client's, a TCP connection, is taken to
    keep the same ones. */
module Proxy {
  import opened Prelude
  import opened Streams
  import opened CopierSpec
  import opened GuestConn

  /** One round of io.Copy: read a chunk and write it on. */
  method CopyOnce(src: Conn, dst: Conn, buf: array<byte>, ghost all: seq<byte>) returns (more: bool, failed: bool)
    requires src.stdout.kernel == dst.stdin.kernel && buf.Length == COPY_SIZE
    requires Replay(dst.stdin.kernel.events) == Some(Reading)
    requires !dst.stdin.shut && dst.stdin.got + src.stdout.left == all
    modifies src.stdout, dst.stdin, dst.stdin.kernel, buf
    ensures Replay(dst.stdin.kernel.events) == Some(if more then Reading else Closing) && !dst.stdin.shut
    ensures more ==> !failed && |src.stdout.left| < |old(src.stdout.left)|
    ensures dst.stdin.got <= all
    ensures !failed ==> dst.stdin.got + src.stdout.left == all
    ensures !more && !failed && !src.stdout.failed ==> src.stdout.left == []
  {
    ghost var events := dst.stdin.kernel.events;
    var n, readErr := src.Read(buf);
    if readErr.Some? {
      ReplaySnoc(events, Ended(src.stdout.dir));
      return false, false;
    }
    ReplaySnoc(events, Got(src.stdout.dir, buf[..n]));
    ghost var before, chunk := dst.stdin.got, buf[..n];
    assert all == before + chunk + src.stdout.left;
    var written, writeErr := dst.Write(buf, n);
    assert buf[..written] == chunk[..written] && all[..|dst.stdin.got|] == dst.stdin.got;
    return writeErr.None?, writeErr.Some?;
  }

  /** The copier makes only the calls its machine accepts, always half-closes its
      destination, delivers a prefix of its source, and unless a write failed all
      but what a failed read left behind. */
  method Pump(src: Conn, dst: Conn, kernel: Kernel) returns (failed: bool)
    requires src.stdout.kernel == dst.stdin.kernel == kernel && kernel.events == []
    requires !src.stdout.failed && dst.Valid() && !dst.writeCloseOnce && dst.stdin.got == []
    modifies src.stdout, dst, dst.stdin, kernel
    ensures Replay(kernel.events) == Some(Done) && dst.Valid() && dst.writeCloseOnce
    ensures dst.stdin.got <= old(src.stdout.left)
    ensures !failed ==> dst.stdin.got + src.stdout.left == old(src.stdout.left)
    ensures !failed && !src.stdout.failed ==> dst.stdin.got == old(src.stdout.left)
  {
    ghost var all := src.stdout.left;
    var buf := new byte[COPY_SIZE];
    var more := true;
    failed := false;
    while more
      invariant fresh(buf) && buf.Length == COPY_SIZE && !dst.stdin.shut
      invariant dst.Valid() && !dst.writeCloseOnce
      invariant Replay(kernel.events) == Some(if more then Reading else Closing)
      invariant more ==> !failed
      invariant dst.stdin.got <= all
      invariant !failed ==> dst.stdin.got + src.stdout.left == all
      invariant !more && !failed && !src.stdout.failed ==> src.stdout.left == []
      decreases more, |src.stdout.left|
    {
      more, failed := CopyOnce(src, dst, buf, all);
    }
    ReplaySnoc(kernel.events, Event.Shut(dst.stdin.dir));
    dst.CloseWrite();
  }
}
