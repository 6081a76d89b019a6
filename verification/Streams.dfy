/** Byte streams as the relay's programs see them: a source yields chunks of an
    adversary's choosing and then end of file, a sink takes chunks of an
    adversary's choosing until it is shut.  A kernel keeps the order in which
    the operations on all of them happened. */
module Streams {

  newtype byte = x: int | 0 <= x < 256

  // One system call and its outcome; `dir` numbers the direction it belongs to.
  datatype Event =
    | Polled(ready0: bool, ready1: bool)
    | Interrupted
    | PollFailed
    | Got(dir: nat, chunk: seq<byte>)
    | Ended(dir: nat)
    | Put(dir: nat, bytes: seq<byte>)
    | PutFailed(dir: nat)
    | Shut(dir: nat)

  class Kernel {
    var events: seq<Event>

    constructor ()
      ensures events == []
    {
      events := [];
    }
  }

  /** The readable end of a stream.  `left` is what the peer will still send
      before it half-closes; a read may fail, and is remembered in `failed`. */
  class Source {
    const kernel: Kernel
    const dir: nat
    var left: seq<byte>
    var failed: bool

    constructor (kernel: Kernel, dir: nat, content: seq<byte>)
      ensures this.kernel == kernel && this.dir == dir && left == content && !failed
    {
      this.kernel, this.dir, left, failed := kernel, dir, content, false;
    }

    // read(2) or recv into the front of buf.
    method Read(buf: array<byte>) returns (n: int)
      requires buf.Length > 0
      modifies this, kernel, buf
      ensures n <= buf.Length
      ensures n < 0 ==> failed && left == old(left)
      ensures n >= 0 ==>
        && failed == old(failed)
        && n <= |old(left)| && left == old(left)[n..] && buf[..n] == old(left)[..n]
        && (n == 0 <==> old(left) == [])
      ensures forall i | 0 <= i < buf.Length && i >= n :: buf[i] == old(buf[i])
      ensures kernel.events == old(kernel.events) + [if n <= 0 then Ended(dir) else Got(dir, buf[..n])]
    {
      var broken := *;
      if broken {
        failed := true;
        kernel.events := kernel.events + [Ended(dir)];
        return -1;
      }
      n := *;
      if n > |left| || n > buf.Length || (n <= 0 && left != []) || n < 0 {
        n := if |left| < buf.Length then |left| else buf.Length;
      }
      forall i | 0 <= i < n { buf[i] := left[i]; }
      kernel.events := kernel.events + [if n <= 0 then Ended(dir) else Got(dir, left[..n])];
      left := left[n..];
    }
  }

  /** The writable end of a stream: what it has taken, and whether it was shut. */
  class Sink {
    const kernel: Kernel
    const dir: nat
    var got: seq<byte>
    var shut: bool

    constructor (kernel: Kernel, dir: nat)
      ensures this.kernel == kernel && this.dir == dir && got == [] && !shut
    {
      this.kernel, this.dir, got, shut := kernel, dir, [], false;
    }

    // write(2) or send of data[off..end]; zero or negative is a failure, which a
    // write after the shut always is.
    method Write(data: array<byte>, off: nat, end: nat) returns (w: int)
      requires off < end <= data.Length
      modifies this, kernel
      ensures shut == old(shut)
      ensures w <= end - off
      ensures shut ==> w <= 0
      ensures w <= 0 ==> got == old(got)
      ensures w > 0 ==> got == old(got) + data[off..off + w]
      ensures kernel.events == old(kernel.events) + [if w <= 0 then PutFailed(dir) else Put(dir, data[off..off + w])]
    {
      w := *;
      if w > end - off { w := end - off; }
      if shut && w > 0 { w := -1; }
      if w > 0 {
        got := got + data[off..off + w];
        kernel.events := kernel.events + [Put(dir, data[off..off + w])];
      } else {
        kernel.events := kernel.events + [PutFailed(dir)];
      }
    }

    // shutdown(SHUT_WR), or close of a descriptor that is only written.
    method Shut()
      requires !shut
      modifies this, kernel
      ensures shut && got == old(got)
      ensures kernel.events == old(kernel.events) + [Event.Shut(dir)]
    {
      shut := true;
      kernel.events := kernel.events + [Event.Shut(dir)];
    }
  }

  // Writing w of the bytes off..n of a buffer leaves the bytes off + w..n.
  lemma Slide(a: array<byte>, off: nat, w: nat, n: nat)
    requires off + w <= n <= a.Length
    ensures a[off..n][..w] == a[off..off + w] && a[off..n][w..] == a[off + w..n]
    ensures a[..off] + a[off..off + w] == a[..off + w]
  {
  }
}
