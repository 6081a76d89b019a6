/** The dial target on its way from Session.dial to the bridge's connect: a
    string put into a C argument array, read back as argv, and taken apart. */
module Target {
  import opened Prelude
  import opened Text

  // A char array in memory; what a C program reads from it ends before the first NUL.
  type Memory = seq<char>

  function CString(mem: Memory): string {
    if mem == [] || mem[0] == NUL then "" else [mem[0]] + CString(mem[1..])
  }

  /** syscall.BytePtrFromString: the bytes and a NUL, or an error. */
  function BytePtr(s: string): Option<Memory> {
    if Free(s, NUL) then Some(s + [NUL]) else None
  }

  lemma {:induction false} CStringOfBytePtr(s: string, junk: Memory)
    requires Free(s, NUL)
    ensures CString(s + [NUL] + junk) == s
  {
    if s != "" {
      CStringOfBytePtr(s[1..], junk);
      assert (s + [NUL] + junk)[1..] == s[1..] + [NUL] + junk;
      assert [s[0]] + s[1..] == s;
    }
  }

  /** makeStringArray: one pointer per item, or an error exactly when some item
      has a NUL; each pointer reads back as its item. */
  method MakeStringArray(items: seq<string>) returns (r: Option<seq<Memory>>)
    ensures r.None? <==> exists i :: 0 <= i < |items| && !Free(items[i], NUL)
    ensures r.Some? ==> |r.value| == |items| && forall i | 0 <= i < |items| :: CString(r.value[i]) == items[i]
  {
    if |items| == 0 {
      return Some([]);
    }
    var ptrs := new Memory[|items|];
    for i := 0 to |items|
      invariant forall j | 0 <= j < i :: Free(items[j], NUL) && CString(ptrs[j]) == items[j]
    {
      var p := BytePtr(items[i]);
      if p.None? {
        return None;
      }
      CStringOfBytePtr(items[i], []);
      assert p.value == items[i] + [NUL] + [];
      ptrs[i] := p.value;
    }
    return Some(ptrs[..]);
  }

  // ------------------------------------------------------------ dialling

  datatype Address = UnixPath(path: string) | HostPort(addr: string)

  // DialGuestUnix and DialGuestTCP.
  function Dialled(a: Address): string {
    match a
    case UnixPath(path) => "unix:" + path
    case HostPort(addr) => "tcp:" + addr
  }

  // ------------------------------------------------------------ the bridge's side

  datatype Goal = ConnectUnix(path: string) | ConnectTcp(host: string, port: string)

  datatype Refusal = InvalidTcp | HostTooLong | NoPrefix

  const SUN_PATH: nat := 108  // sizeof(sun_path)
  const HOST_BUF: nat := 256  // sizeof(host)

  // sun_path after memset and strncpy with room for the terminator, read back.
  function SunPath(path: string): string {
    if |path| < SUN_PATH then path else path[..SUN_PATH - 1]
  }

  // strrchr(s, ':') - s, or None.
  function LastColon(s: string): Option<nat> {
    if s == "" then None
    else if s[|s| - 1] == ':' then Some(|s| - 1)
    else LastColon(s[..|s| - 1])
  }

  lemma {:induction false} LastColonIs(s: string)
    ensures match LastColon(s)
      case None => Free(s, ':')
      case Some(i) => i < |s| && s[i] == ':' && Free(s[i + 1..], ':')
  {
    if s != "" && s[|s| - 1] != ':' {
      var front := s[..|s| - 1];
      LastColonIs(front);
      if LastColon(front).Some? {
        var i := LastColon(front).value;
        assert s[i + 1..] == front[i + 1..] + [s[|s| - 1]];
      }
    }
  }

  function ParseTcp(hostport: string): Result<Goal, Refusal> {
    LastColonIs(hostport);
    var colon := LastColon(hostport);
    if colon.None? || colon.value == 0 then Err(InvalidTcp)
    else if colon.value >= HOST_BUF then Err(HostTooLong)
    else Ok(ConnectTcp(hostport[..colon.value], hostport[colon.value + 1..]))
  }

  // main's decision on argv[1].
  function ParseTarget(arg: string): Result<Goal, Refusal> {
    if "unix:" <= arg then Ok(ConnectUnix(SunPath(arg[5..])))
    else if "tcp:" <= arg then ParseTcp(arg[4..])
    else Err(NoPrefix)
  }

  // ------------------------------------------------------------ round trips

  /** A dialled unix path is the path connected to exactly when it has at most
      107 bytes; a longer one is silently cut to its first 107. */
  lemma UnixRoundTrip(path: string)
    ensures ParseTarget(Dialled(UnixPath(path))) == Ok(ConnectUnix(path)) <==> |path| <= 107
    ensures |path| > 107 ==> ParseTarget(Dialled(UnixPath(path))) == Ok(ConnectUnix(path[..107]))
  {
    assert ("unix:" + path)[5..] == path;
  }

  lemma TcpArgument(addr: string)
    ensures ParseTarget(Dialled(HostPort(addr))) == ParseTcp(addr)
  {
    var arg := Dialled(HostPort(addr));
    assert arg[4..] == addr && arg[0] == 't';
    assert !("unix:" <= arg) by { assert "unix:"[0] == 'u'; }
  }

  /** A dialled address is taken apart into a host of 1 to 255 bytes and a
      colon-free port, and into no other pair. */
  lemma TcpRoundTrip(addr: string, host: string, port: string)
    ensures ParseTarget(Dialled(HostPort(addr))) == Ok(ConnectTcp(host, port))
      <==> addr == host + ":" + port && 1 <= |host| <= 255 && Free(port, ':')
  {
    TcpArgument(addr);
    if addr == host + ":" + port && 1 <= |host| <= 255 && Free(port, ':') { TcpAccepts(host, port); }
    if ParseTcp(addr) == Ok(ConnectTcp(host, port)) { TcpRebuilds(addr); }
  }

  lemma TcpAccepts(host: string, port: string)
    requires 1 <= |host| <= 255 && Free(port, ':')
    ensures ParseTcp(host + ":" + port) == Ok(ConnectTcp(host, port))
  {
    var addr := host + ":" + port;
    assert addr[|host| + 1..] == port && addr[..|host|] == host;
    LastColonUnique(addr, |host|);
  }

  lemma TcpRebuilds(addr: string)
    requires ParseTcp(addr).Ok?
    ensures var r := ParseTcp(addr).value;
      r.ConnectTcp? && addr == r.host + ":" + r.port && 1 <= |r.host| <= 255 && Free(r.port, ':')
  {
    LastColonIs(addr);
    var i := LastColon(addr).value;
    assert addr == addr[..i] + [addr[i]] + addr[i + 1..];
  }

  lemma {:induction false} LastColonUnique(s: string, i: nat)
    requires i < |s| && s[i] == ':' && Free(s[i + 1..], ':')
    ensures LastColon(s) == Some(i)
  {
    if i < |s| - 1 {
      var front := s[..|s| - 1];
      assert s[i + 1..][|s| - 2 - i] == s[|s| - 1];
      assert front[i + 1..] == s[i + 1..][..|s| - 2 - i];
      LastColonUnique(front, i);
    }
  }

  /** Exactly which addresses the bridge refuses, and why. */
  lemma TcpRefusals(addr: string)
    ensures ParseTarget(Dialled(HostPort(addr))) == Err(InvalidTcp) <==> addr == "" || Free(addr[1..], ':')
    ensures ParseTarget(Dialled(HostPort(addr))) == Err(HostTooLong)
      <==> exists i :: 256 <= i < |addr| && addr[i] == ':'
  {
    TcpArgument(addr);
    LastColonIs(addr);
    var colon := LastColon(addr);
    if colon.Some? {
      var i := colon.value;
      assert i > 0 ==> addr[1..][i - 1] == ':';
      assert i == 0 ==> addr[i + 1..] == addr[1..];
      forall k | i < k < |addr| ensures addr[k] != ':' {
        assert addr[k] == addr[i + 1..][k - i - 1];
      }
    }
  }

  /** The bridge understands exactly the arguments a dial can produce. */
  lemma TargetsAreDialled(arg: string)
    ensures ParseTarget(arg) != Err(NoPrefix) <==> exists a: Address :: Dialled(a) == arg
  {
    if "unix:" <= arg {
      assert Dialled(UnixPath(arg[5..])) == arg;
    } else if "tcp:" <= arg {
      assert Dialled(HostPort(arg[4..])) == arg;
    }
  }

  /** From the dialled address to the connection: a NUL-free address survives the
      argument array and reaches the bridge as argv[1] unchanged. */
  method DialArgv(script: string, a: Address) returns (r: Option<seq<Memory>>)
    ensures r.None? <==> !Free(script, NUL) || !Free(Dialled(a), NUL)
    ensures r.Some? ==> |r.value| == 3
    ensures r.Some? ==>
      CString(r.value[0]) == "/bin/sh" && CString(r.value[1]) == script && CString(r.value[2]) == Dialled(a)
  {
    var argv := ["/bin/sh", script, Dialled(a)];
    r := MakeStringArray(argv);
    assert argv[0] == "/bin/sh" && argv[1] == script && argv[2] == Dialled(a) && Free(argv[0], NUL);
  }
}
