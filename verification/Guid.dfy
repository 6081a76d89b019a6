/** GUID text: parseGUID against the canonical 8-4-4-4-12 form of section 3 of
    RFC 4122. */
module Guid {
  import opened Prelude
  import opened Text

  newtype octet = x: int | 0 <= x < 256

  // The Windows layout: a 32-bit and two 16-bit numbers, and eight bytes.
  datatype GUID = GUID(data1: nat, data2: nat, data3: nat, data4: seq<octet>) {
    predicate Valid() {
      data1 < Pow256(4) && data2 < Pow256(2) && data3 < Pow256(2) && |data4| == 8
    }
  }

  // ------------------------------------------------------------ hex and big-endian

  function HexVal(c: char): Option<nat> {
    if '0' <= c <= '9' then Some(c as int - '0' as int)
    else if 'a' <= c <= 'f' then Some(c as int - 'a' as int + 10)
    else if 'A' <= c <= 'F' then Some(c as int - 'A' as int + 10)
    else None
  }

  function HexChar(n: nat): char
    requires n < 16
  {
    if n < 10 then ('0' as int + n) as char else ('a' as int + n - 10) as char
  }

  /** hex.DecodeString: None for an odd length or a character that is not hex. */
  function Decode(h: string): Option<seq<octet>> {
    if h == "" then Some([])
    else if |h| == 1 then None
    else
      match (HexVal(h[0]), HexVal(h[1]), Decode(h[2..]))
      case (Some(hi), Some(lo), Some(rest)) => Some([(16 * hi + lo) as octet] + rest)
      case _ => None
  }

  function Encode(bytes: seq<octet>): string {
    if bytes == [] then ""
    else [HexChar(bytes[0] as int / 16), HexChar(bytes[0] as int % 16)] + Encode(bytes[1..])
  }

  function Pow256(n: nat): nat {
    if n == 0 then 1 else 256 * Pow256(n - 1)
  }

  // binary.BigEndian.Uint32 and Uint16.
  function FromBE(bytes: seq<octet>): nat {
    if bytes == [] then 0 else 256 * FromBE(bytes[..|bytes| - 1]) + bytes[|bytes| - 1] as int
  }

  function ToBE(n: nat, len: nat): (bytes: seq<octet>)
    ensures |bytes| == len
  {
    if len == 0 then [] else ToBE(n / 256, len - 1) + [(n % 256) as octet]
  }

  lemma {:induction false} BERoundTrip(n: nat, len: nat)
    requires n < Pow256(len)
    ensures FromBE(ToBE(n, len)) == n
  {
    if len > 0 {
      BERoundTrip(n / 256, len - 1);
      assert ToBE(n, len)[..len - 1] == ToBE(n / 256, len - 1);
    }
  }

  lemma {:induction false} BEInverse(bytes: seq<octet>)
    ensures FromBE(bytes) < Pow256(|bytes|) && ToBE(FromBE(bytes), |bytes|) == bytes
  {
    if bytes != [] {
      BEInverse(bytes[..|bytes| - 1]);
    }
  }

  lemma HexDigit(n: nat)
    requires n < 16
    ensures HexVal(HexChar(n)) == Some(n)
    ensures HexChar(n) != '-' && HexChar(n) != '{' && HexChar(n) != '}'
  {
  }

  lemma {:induction false} DecodeEncode(bytes: seq<octet>)
    ensures Decode(Encode(bytes)) == Some(bytes)
    ensures Free(Encode(bytes), '-') && Free(Encode(bytes), '{') && Free(Encode(bytes), '}')
  {
    if bytes != [] {
      DecodeEncode(bytes[1..]);
      HexByte(bytes[0]);
      assert [bytes[0]] + bytes[1..] == bytes;
      assert Encode(bytes)[2..] == Encode(bytes[1..]);
    }
  }

  function LowerChar(c: char): char {
    if 'A' <= c <= 'Z' then (c as int + 32) as char else c
  }

  function Lower(s: string): (t: string)
    ensures |t| == |s| && forall i | 0 <= i < |s| :: t[i] == LowerChar(s[i])
  {
    if s == "" then "" else [LowerChar(s[0])] + Lower(s[1..])
  }

  // One byte in hex and back.
  lemma HexByte(b: octet)
    ensures HexVal(HexChar(b as int / 16)) == Some(b as int / 16)
    ensures HexVal(HexChar(b as int % 16)) == Some(b as int % 16)
    ensures Free([HexChar(b as int / 16), HexChar(b as int % 16)], '-')
    ensures Free([HexChar(b as int / 16), HexChar(b as int % 16)], '{')
    ensures Free([HexChar(b as int / 16), HexChar(b as int % 16)], '}')
  {
    HexDigit(b as int / 16);
    HexDigit(b as int % 16);
  }

  lemma HexPair(x: char, y: char)
    requires HexVal(x).Some? && HexVal(y).Some?
    ensures var b := 16 * HexVal(x).value + HexVal(y).value;
      b < 256 && HexChar(b / 16) == LowerChar(x) && HexChar(b % 16) == LowerChar(y)
  {
  }

  lemma {:induction false} EncodeDecode(h: string)
    requires Decode(h).Some?
    ensures Encode(Decode(h).value) == Lower(h) && |h| == 2 * |Decode(h).value|
  {
    if h != "" {
      EncodeDecode(h[2..]);
      HexPair(h[0], h[1]);
      var bytes := Decode(h).value;
      assert bytes[1..] == Decode(h[2..]).value;
      assert Lower(h) == [LowerChar(h[0]), LowerChar(h[1])] + Lower(h[2..]);
    }
  }

  lemma {:induction false} DecodeLower(h: string)
    ensures Decode(Lower(h)) == Decode(h)
  {
    if |h| >= 2 {
      DecodeLower(h[2..]);
      assert Lower(h)[2..] == Lower(h[2..]);
    }
  }

  // ------------------------------------------------------------ parsing

  // strings.Trim(s, "{}").
  function Trim(s: string): string {
    if s != "" && (s[0] == '{' || s[0] == '}') then Trim(s[1..])
    else if s != "" && (s[|s| - 1] == '{' || s[|s| - 1] == '}') then Trim(s[..|s| - 1])
    else s
  }

  function DecodeLen(h: string, n: nat): Option<seq<octet>> {
    var bytes := Decode(h);
    if bytes.Some? && |bytes.value| == n then bytes else None
  }

  // What a brace-free text denotes.
  function ParseTrimmed(t: string): Option<GUID> {
    var parts := Split(t, '-');
    if |parts| != 5 then None
    else
      match (DecodeLen(parts[0], 4), DecodeLen(parts[1], 2), DecodeLen(parts[2], 2),
             DecodeLen(parts[3], 2), DecodeLen(parts[4], 6))
      case (Some(d1), Some(d2), Some(d3), Some(d4a), Some(d4b)) =>
        Some(GUID(FromBE(d1), FromBE(d2), FromBE(d3), d4a + d4b))
      case _ => None
  }

  function Parse(s: string): Option<GUID> {
    ParseTrimmed(Trim(s))
  }

  /** parseGUID as it is written: the parts decoded and length-checked one after
      the other, Data4 filled in two copies. */
  method ParseGUID(s: string) returns (r: Option<GUID>)
    ensures r == Parse(s)
  {
    var parts := Split(Trim(s), '-');
    if |parts| != 5 { return None; }
    var d1 := Decode(parts[0]);
    if d1.None? || |d1.value| != 4 { return None; }
    var d2 := Decode(parts[1]);
    if d2.None? || |d2.value| != 2 { return None; }
    var d3 := Decode(parts[2]);
    if d3.None? || |d3.value| != 2 { return None; }
    var d4a := Decode(parts[3]);
    if d4a.None? || |d4a.value| != 2 { return None; }
    var d4b := Decode(parts[4]);
    if d4b.None? || |d4b.value| != 6 { return None; }
    var data4 := new octet[8](_ => 0);
    for i := 0 to 2
      invariant forall j | 0 <= j < i :: data4[j] == d4a.value[j]
    {
      data4[i] := d4a.value[i];
    }
    for i := 0 to 6
      invariant forall j | 0 <= j < 2 :: data4[j] == d4a.value[j]
      invariant forall j | 0 <= j < i :: data4[2 + j] == d4b.value[j]
    {
      data4[2 + i] := d4b.value[i];
    }
    assert data4[..] == d4a.value + d4b.value;
    return Some(GUID(FromBE(d1.value), FromBE(d2.value), FromBE(d3.value), data4[..]));
  }

  // ------------------------------------------------------------ the canonical text

  function Parts(g: GUID): seq<string>
    requires g.Valid()
  {
    [Encode(ToBE(g.data1, 4)), Encode(ToBE(g.data2, 2)), Encode(ToBE(g.data3, 2)),
     Encode(g.data4[..2]), Encode(g.data4[2..])]
  }

  function Canonical(g: GUID): string
    requires g.Valid()
  {
    Join(Parts(g), '-')
  }

  lemma ParseCanonical(g: GUID)
    requires g.Valid()
    ensures ParseTrimmed(Canonical(g)) == Some(g)
  {
    var parts := Parts(g);
    DecodeEncode(ToBE(g.data1, 4));
    DecodeEncode(ToBE(g.data2, 2));
    DecodeEncode(ToBE(g.data3, 2));
    DecodeEncode(g.data4[..2]);
    DecodeEncode(g.data4[2..]);
    SplitJoin(parts, '-');
    BERoundTrip(g.data1, 4);
    BERoundTrip(g.data2, 2);
    BERoundTrip(g.data3, 2);
    assert g.data4[..2] + g.data4[2..] == g.data4;
  }

  // ------------------------------------------------------------ letter case

  function LowerAll(parts: seq<string>): (r: seq<string>)
    ensures |r| == |parts| && forall i | 0 <= i < |parts| :: r[i] == Lower(parts[i])
  {
    if parts == [] then [] else [Lower(parts[0])] + LowerAll(parts[1..])
  }

  lemma {:induction false} LowerConcat(a: string, b: string)
    ensures Lower(a + b) == Lower(a) + Lower(b)
  {
  }

  lemma {:induction false} LowerJoin(parts: seq<string>)
    requires |parts| >= 1
    ensures Lower(Join(parts, '-')) == Join(LowerAll(parts), '-')
  {
    if |parts| > 1 {
      LowerJoin(parts[1..]);
      LowerConcat(parts[0] + "-", Join(parts[1..], '-'));
      LowerConcat(parts[0], "-");
      assert LowerAll(parts)[1..] == LowerAll(parts[1..]);
    }
  }

  lemma SplitLower(t: string)
    ensures Split(Lower(t), '-') == LowerAll(Split(t, '-'))
  {
    var parts := Split(t, '-');
    JoinSplit(t, '-');
    LowerJoin(parts);
    forall p | p in LowerAll(parts) ensures Free(p, '-') {
      var i :| 0 <= i < |parts| && p == Lower(parts[i]);
      assert parts[i] in parts;
    }
    SplitJoin(LowerAll(parts), '-');
  }

  lemma ParseLower(t: string)
    ensures ParseTrimmed(Lower(t)) == ParseTrimmed(t)
  {
    var parts := Split(t, '-');
    SplitLower(t);
    if |parts| == 5 {
      DecodeLower(parts[0]);
      DecodeLower(parts[1]);
      DecodeLower(parts[2]);
      DecodeLower(parts[3]);
      DecodeLower(parts[4]);
    }
  }

  lemma NumberPart(h: string, n: nat)
    requires DecodeLen(h, n).Some?
    ensures var v := FromBE(DecodeLen(h, n).value); v < Pow256(n) && Encode(ToBE(v, n)) == Lower(h)
  {
    EncodeDecode(h);
    BEInverse(Decode(h).value);
  }

  ghost predicate DecodesTo(parts: seq<string>, g: GUID) {
    && |parts| == 5
    && DecodeLen(parts[0], 4).Some? && g.data1 == FromBE(DecodeLen(parts[0], 4).value)
    && DecodeLen(parts[1], 2).Some? && g.data2 == FromBE(DecodeLen(parts[1], 2).value)
    && DecodeLen(parts[2], 2).Some? && g.data3 == FromBE(DecodeLen(parts[2], 2).value)
    && DecodeLen(parts[3], 2).Some? && DecodeLen(parts[4], 6).Some?
    && g.data4 == DecodeLen(parts[3], 2).value + DecodeLen(parts[4], 6).value
  }

  lemma PartsAreLower(parts: seq<string>, g: GUID)
    requires DecodesTo(parts, g)
    ensures g.Valid() && Parts(g) == LowerAll(parts)
  {
    NumberPart(parts[0], 4);
    NumberPart(parts[1], 2);
    NumberPart(parts[2], 2);
    EncodeDecode(parts[3]);
    EncodeDecode(parts[4]);
    assert g.data4[..2] == DecodeLen(parts[3], 2).value && g.data4[2..] == DecodeLen(parts[4], 6).value;
  }

  lemma AcceptedIsCanonical(t: string)
    requires ParseTrimmed(t).Some?
    ensures var g := ParseTrimmed(t).value; g.Valid() && Canonical(g) == Lower(t)
  {
    var parts, g := Split(t, '-'), ParseTrimmed(t).value;
    PartsAreLower(parts, g);
    JoinSplit(t, '-');
    LowerJoin(parts);
  }

  // ------------------------------------------------------------ theorems

  predicate Braces(s: string) {
    forall i | 0 <= i < |s| :: s[i] == '{' || s[i] == '}'
  }

  lemma {:induction false} TrimBraces(left: string, s: string, right: string)
    requires Braces(left) && Braces(right) && Free(s, '{') && Free(s, '}')
    ensures Trim(left + s + right) == s
    decreases |left| + |right|
  {
    var whole := left + s + right;
    if left != "" {
      assert whole[1..] == left[1..] + s + right;
      TrimBraces(left[1..], s, right);
    } else if right != "" {
      if s == "" {
        assert whole == right + s + left;
        assert whole[1..] == right[1..] + s + left;
        TrimBraces(right[1..], s, left);
      } else {
        assert whole[..|whole| - 1] == left + s + right[..|right| - 1];
        TrimBraces(left, s, right[..|right| - 1]);
      }
    } else {
      assert whole == s;
    }
  }

  // Trimming takes braces off both ends and nothing else.
  lemma {:induction false} TrimTakesBraces(s: string) returns (left: string, right: string)
    ensures s == left + Trim(s) + right && Braces(left) && Braces(right)
    decreases |s|
  {
    left, right := "", "";
    if s != "" && (s[0] == '{' || s[0] == '}') {
      left, right := TrimTakesBraces(s[1..]);
      left := [s[0]] + left;
    } else if s != "" && (s[|s| - 1] == '{' || s[|s| - 1] == '}') {
      left, right := TrimTakesBraces(s[..|s| - 1]);
      right := right + [s[|s| - 1]];
    }
  }

  lemma {:induction false} CanonicalHasNoBraces(parts: seq<string>)
    requires |parts| >= 1 && forall p | p in parts :: Free(p, '{') && Free(p, '}')
    ensures Free(Join(parts, '-'), '{') && Free(Join(parts, '-'), '}')
  {
    assert parts[0] in parts;
    if |parts| > 1 { CanonicalHasNoBraces(parts[1..]); }
  }

  lemma TextHasNoBraces(g: GUID)
    requires g.Valid()
    ensures Free(Canonical(g), '{') && Free(Canonical(g), '}')
  {
    DecodeEncode(ToBE(g.data1, 4));
    DecodeEncode(ToBE(g.data2, 2));
    DecodeEncode(ToBE(g.data3, 2));
    DecodeEncode(g.data4[..2]);
    DecodeEncode(g.data4[2..]);
    CanonicalHasNoBraces(Parts(g));
  }

  // A text in braces that is, in either case, the canonical text of g.
  ghost predicate Writes(s: string, g: GUID, left: string, t: string, right: string)
    requires g.Valid()
  {
    s == left + t + right && Braces(left) && Braces(right) && Lower(t) == Canonical(g)
  }

  /** parseGUID accepts a text as g exactly when, between any braces, it is the
      canonical text of g in lower or upper case. */
  lemma ParseExactly(s: string, g: GUID)
    ensures Parse(s) == Some(g) <==> g.Valid() && exists left, t, right :: Writes(s, g, left, t, right)
  {
    if Parse(s) == Some(g) {
      AcceptedIsCanonical(Trim(s));
      var left, right := TrimTakesBraces(s);
      assert Writes(s, g, left, Trim(s), right);
    }
    if g.Valid() && exists left, t, right :: Writes(s, g, left, t, right) {
      var left, t, right :| Writes(s, g, left, t, right);
      TextHasNoBraces(g);
      LowerHasSameBraces(t);
      TrimBraces(left, t, right);
      ParseLower(t);
      ParseCanonical(g);
    }
  }

  lemma LowerHasSameBraces(t: string)
    requires Free(Lower(t), '{') && Free(Lower(t), '}')
    ensures Free(t, '{') && Free(t, '}')
  {
    forall i | 0 <= i < |t| ensures t[i] != '{' && t[i] != '}' {
      assert Lower(t)[i] == LowerChar(t[i]);
    }
  }

  /** Round trip: the canonical text of any GUID, with any braces around it,
      parses to that GUID. */
  lemma RoundTrip(g: GUID, left: string, right: string)
    requires g.Valid() && Braces(left) && Braces(right)
    ensures Parse(left + Canonical(g) + right) == Some(g)
  {
    TextHasNoBraces(g);
    TrimBraces(left, Canonical(g), right);
    ParseCanonical(g);
  }
}
