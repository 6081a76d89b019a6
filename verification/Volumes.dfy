/** Volume options: parsing the -volume flag and turning a size in megabytes
    into the decimal byte count handed to the volume driver. */
module Volumes {
  import opened Prelude
  import opened Text

  const TWO64: nat := 0x1_0000_0000_0000_0000
  const MEGABYTE: nat := 1024 * 1024

  // sizeMB is a uint64 in the source.
  datatype VolumeOptions = VolumeOptions(name: string, sizeMB: nat, fixed: bool)

  // The checks CreateVolume makes before it calls the service.
  predicate Creatable(v: VolumeOptions) {
    v.name != "" && v.sizeMB != 0 && Free(v.name, NUL)
  }

  /** Exactly which volumes are refused before the service is asked. */
  lemma Refusals(v: VolumeOptions)
    ensures !Creatable(v) <==> v.name == "" || v.sizeMB == 0 || NUL in v.name
  {
  }

  datatype ParseError = TooFewParts | BadSize | SizeOutOfRange | BadFixed

  /** strconv.ParseUint(s, 10, 64). */
  function ParseUint(s: string): Result<nat, ParseError> {
    if s == "" || !Digits(s) then Err(BadSize)
    else if Value(s) >= TWO64 then Err(SizeOutOfRange)
    else Ok(Value(s))
  }

  /** strconv.ParseBool. */
  function ParseBool(s: string): Result<bool, ParseError> {
    if s == "1" || s == "t" || s == "T" || s == "true" || s == "TRUE" || s == "True" then Ok(true)
    else if s == "0" || s == "f" || s == "F" || s == "false" || s == "FALSE" || s == "False" then Ok(false)
    else Err(BadFixed)
  }

  /** strconv.FormatBool. */
  function FormatBool(b: bool): string {
    if b then "true" else "false"
  }

  // What one -volume argument means; parts after the third are ignored.
  function ParseVolume(s: string): Result<VolumeOptions, ParseError> {
    var parts := Split(s, ':');
    if |parts| < 2 then Err(TooFewParts)
    else
      match ParseUint(parts[1])
      case Err(e) => Err(e)
      case Ok(size) =>
        if |parts| == 2 then Ok(VolumeOptions(parts[0], size, false))
        else
          match ParseBool(parts[2])
          case Err(e) => Err(e)
          case Ok(fixed) => Ok(VolumeOptions(parts[0], size, fixed))
  }

  // The repeatable -volume flag.
  class VolumeFlag {
    var volumes: seq<VolumeOptions>

    constructor ()
      ensures volumes == []
    {
      volumes := [];
    }

    /** Set appends what the argument means, keeping the order of the arguments;
        an argument that means nothing changes nothing. */
    method Set(s: string) returns (err: Option<ParseError>)
      modifies this
      ensures match ParseVolume(s)
        case Ok(v) => err == None && volumes == old(volumes) + [v]
        case Err(e) => err == Some(e) && volumes == old(volumes)
    {
      var parts := Split(s, ':');
      if |parts| < 2 { return Some(TooFewParts); }
      var size := ParseUint(parts[1]);
      if size.Err? { return Some(size.error); }
      var fixed := false;
      if |parts| > 2 {
        var parsed := ParseBool(parts[2]);
        if parsed.Err? { return Some(parsed.error); }
        fixed := parsed.value;
      }
      volumes := volumes + [VolumeOptions(parts[0], size.value, fixed)];
      return None;
    }
  }

  // The SizeBytes driver option: v.SizeMB*1024*1024 in 64-bit arithmetic, in decimal.
  function SizeBytes(v: VolumeOptions): string {
    Decimal(v.sizeMB * MEGABYTE % TWO64)
  }

  // The options handed to the volume driver, as keys and values.
  function DriverOptions(v: VolumeOptions): seq<(string, string)> {
    [("SizeBytes", SizeBytes(v)), ("Fixed", FormatBool(v.fixed))]
  }

  /** The driver is told the size in bytes and, as true or false, whether it is
      fixed, and nothing else. */
  lemma DriverIsTold(v: VolumeOptions)
    ensures var o := DriverOptions(v);
      && |o| == 2 && o[0].0 == "SizeBytes" && o[1].0 == "Fixed"
      && o[0].1 != "" && Digits(o[0].1) && Value(o[0].1) == v.sizeMB * MEGABYTE % TWO64
      && (o[1].1 == "true" <==> v.fixed) && (o[1].1 == "false" <==> !v.fixed)
  {
    DecimalValue(v.sizeMB * MEGABYTE % TWO64);
  }

  function Print(v: VolumeOptions): string {
    v.name + ":" + Decimal(v.sizeMB) + ":" + FormatBool(v.fixed)
  }

  // The texts that mean true, and those that mean false.
  predicate Says(flag: string, b: bool) {
    if b then flag in {"1", "t", "T", "TRUE", "true", "True"} else flag in {"0", "f", "F", "FALSE", "false", "False"}
  }

  lemma ParseBoolExactly(flag: string, b: bool)
    ensures ParseBool(flag) == Ok(b) <==> Says(flag, b)
    ensures ParseBool(flag).Err? <==> !Says(flag, true) && !Says(flag, false)
  {
  }

  lemma BoolRoundTrip(b: bool)
    ensures ParseBool(FormatBool(b)) == Ok(b) && Free(FormatBool(b), ':')
  {
  }

  lemma DigitsAreColonFree(s: string)
    requires Digits(s)
    ensures Free(s, ':')
  {
  }

  /** Round trip: name:size:fixed is parsed back to the same options, for every
      colon-free name and every size a uint64 holds. */
  lemma ParsePrint(v: VolumeOptions)
    requires Free(v.name, ':') && v.sizeMB < TWO64
    ensures ParseVolume(Print(v)) == Ok(v)
  {
    SplitPrint(v);
    DecimalValue(v.sizeMB);
    BoolRoundTrip(v.fixed);
  }

  lemma SplitPrint(v: VolumeOptions)
    requires Free(v.name, ':')
    ensures Split(Print(v), ':') == [v.name, Decimal(v.sizeMB), FormatBool(v.fixed)]
  {
    BoolRoundTrip(v.fixed);
    DigitsAreColonFree(Decimal(v.sizeMB));
    SplitThree(v.name, Decimal(v.sizeMB), FormatBool(v.fixed));
  }

  lemma SplitThree(a: string, b: string, c: string)
    requires Free(a, ':') && Free(b, ':') && Free(c, ':')
    ensures Split(a + ":" + b + ":" + c, ':') == [a, b, c]
  {
    SplitFree(c, ':');
    SplitAt(b, c, ':');
    SplitAt(a, b + ":" + c, ':');
    assert a + ":" + b + ":" + c == a + [':'] + (b + ":" + c);
  }

  /** The driver is told the right number of bytes exactly for sizes below 2^44
      megabytes; from there on the product wraps around at 2^64. */
  lemma SizeBytesExactly(v: VolumeOptions)
    ensures Digits(SizeBytes(v))
    ensures Value(SizeBytes(v)) == v.sizeMB * MEGABYTE <==> v.sizeMB < 0x1000_0000_0000
    ensures Value(SizeBytes(v)) < TWO64 && (v.sizeMB * MEGABYTE - Value(SizeBytes(v))) % TWO64 == 0
  {
    DecimalValue(v.sizeMB * MEGABYTE % TWO64);
  }

  /** What the wrap does: 2^44 megabytes are handed over as "0". */
  lemma SizeWrapsToZero(name: string, fixed: bool)
    ensures SizeBytes(VolumeOptions(name, 0x1000_0000_0000, fixed)) == "0"
  {
  }

  /** The whole pipeline: printed, parsed and formatted, a size below 2^44
      megabytes reaches the driver as its exact number of bytes. */
  lemma Pipeline(v: VolumeOptions)
    requires Free(v.name, ':') && 0 < v.sizeMB < 0x1000_0000_0000
    ensures var r := ParseVolume(Print(v));
      && r.Ok? && r.value.name == v.name && r.value.fixed == v.fixed
      && Value(SizeBytes(r.value)) == v.sizeMB * MEGABYTE && SizeBytes(r.value)[0] != '0'
  {
    ParsePrint(v);
    SizeBytesExactly(v);
  }

  // A text begins with the given name, size and, if there is a third part, flag.
  ghost predicate Spells(s: string, v: VolumeOptions, size: string, flag: string) {
    && size != "" && Digits(size) && Value(size) == v.sizeMB < TWO64
    && ((s == v.name + ":" + size && !v.fixed)
        || (Says(flag, v.fixed) && Free(flag, ':')
            && (s == v.name + ":" + size + ":" + flag || v.name + ":" + size + ":" + flag + ":" <= s)))
  }

  /** What the third part means, and nothing else is accepted there. */
  lemma FlagExactly(name: string, size: string, flag: string)
    requires Free(name, ':') && Free(flag, ':')
    requires size != "" && Digits(size) && Value(size) < TWO64
    ensures var r := ParseVolume(name + ":" + size + ":" + flag);
      && (r == Ok(VolumeOptions(name, Value(size), true)) <==> Says(flag, true))
      && (r == Ok(VolumeOptions(name, Value(size), false)) <==> Says(flag, false))
      && (r == Err(BadFixed) <==> !Says(flag, true) && !Says(flag, false))
  {
    DigitsAreColonFree(size);
    SplitThree(name, size, flag);
    ParseBoolExactly(flag, true);
    ParseBoolExactly(flag, false);
  }

  lemma FirstParts(name: string, size: string, rest: string)
    requires Free(name, ':') && Free(size, ':') && (rest == "" || rest[0] == ':')
    ensures var parts := Split(name + ":" + (size + rest), ':'); |parts| >= 2 && parts[0] == name && parts[1] == size
  {
    Front(name, size + rest);
    if rest == "" {
      assert size + rest == size;
      SplitFree(size, ':');
    } else {
      assert size + rest == size + [':'] + rest[1..];
      SplitAt(size, rest[1..], ':');
    }
  }

  lemma ParseUintRefuses(size: string)
    ensures ParseUint(size) == Err(BadSize) <==> size == "" || exists i :: 0 <= i < |size| && !('0' <= size[i] <= '9')
    ensures ParseUint(size) == Err(SizeOutOfRange) <==> size != "" && Digits(size) && Value(size) >= TWO64
    ensures ParseUint(size).Err? ==> ParseUint(size) == Err(BadSize) || ParseUint(size) == Err(SizeOutOfRange)
  {
  }

  lemma SecondPartFails(s: string)
    requires |Split(s, ':')| >= 2
    ensures var r, size := ParseVolume(s), ParseUint(Split(s, ':')[1]);
      && r != Err(TooFewParts)
      && (r == Err(BadSize) <==> size == Err(BadSize)) && (r == Err(SizeOutOfRange) <==> size == Err(SizeOutOfRange))
  {
    ParseUintRefuses(Split(s, ':')[1]);
  }

  /** Exactly which arguments are refused for want of a colon, and for their second
      part: before anything that may follow it. */
  lemma PartRefusals(name: string, size: string, rest: string)
    requires Free(name, ':') && Free(size, ':') && (rest == "" || rest[0] == ':')
    ensures ParseVolume(name) == Err(TooFewParts)
    ensures var r := ParseVolume(name + ":" + (size + rest));
      && r != Err(TooFewParts)
      && (r == Err(BadSize) <==> size == "" || exists i :: 0 <= i < |size| && !('0' <= size[i] <= '9'))
      && (r == Err(SizeOutOfRange) <==> size != "" && Digits(size) && Value(size) >= TWO64)
  {
    SplitFree(name, ':');
    FirstParts(name, size, rest);
    SecondPartFails(name + ":" + (size + rest));
    ParseUintRefuses(size);
  }

  /** Set accepts a text as v exactly when it spells v: a colon-free name, a
      decimal size below 2^64 and, after a second colon, a boolean; whatever
      follows a third colon is ignored. */
  lemma ParseExactly(s: string, v: VolumeOptions)
    ensures ParseVolume(s) == Ok(v) <==> Free(v.name, ':') && exists size, flag :: Spells(s, v, size, flag)
  {
    if ParseVolume(s) == Ok(v) {
      AcceptedSpells(s);
    }
    if Free(v.name, ':') && exists size, flag :: Spells(s, v, size, flag) {
      var size, flag :| Spells(s, v, size, flag);
      SpelledParses(s, v, size, flag);
    }
  }

  // A first part up to a separator.
  lemma Front(a: string, rest: string)
    requires Free(a, ':')
    ensures Split(a + ":" + rest, ':') == [a] + Split(rest, ':')
  {
    SplitAt(a, rest, ':');
  }

  lemma Regroup(a: string, b: string, c: string, rest: string)
    ensures a + ":" + b + ":" + c + ":" + rest == a + ":" + (b + ":" + (c + ":" + rest))
  {
  }

  // The parts of a text with a third colon, up to that colon.
  lemma FrontThree(a: string, b: string, c: string, rest: string)
    requires Free(a, ':') && Free(b, ':') && Free(c, ':')
    ensures Split(a + ":" + b + ":" + c + ":" + rest, ':') == [a, b, c] + Split(rest, ':')
  {
    var fromC := c + ":" + rest;
    var fromB := b + ":" + fromC;
    Front(c, rest);
    Front(b, fromC);
    Front(a, fromB);
    Regroup(a, b, c, rest);
    assert [a] + ([b] + ([c] + Split(rest, ':'))) == [a, b, c] + Split(rest, ':');
  }

  lemma SpelledParts(s: string, v: VolumeOptions, size: string, flag: string) returns (parts: seq<string>)
    requires Free(v.name, ':') && Spells(s, v, size, flag)
    ensures parts == Split(s, ':') && |parts| >= 2 && parts[0] == v.name && parts[1] == size
    ensures |parts| == 2 ==> !v.fixed
    ensures |parts| > 2 ==> parts[2] == flag && Says(flag, v.fixed)
  {
    DigitsAreColonFree(size);
    parts := Split(s, ':');
    if s == v.name + ":" + size && !v.fixed {
      SplitFree(size, ':');
      Front(v.name, size);
    } else if s == v.name + ":" + size + ":" + flag {
      SplitThree(v.name, size, flag);
    } else {
      var front := v.name + ":" + size + ":" + flag + ":";
      assert s == front + s[|front|..];
      FrontThree(v.name, size, flag, s[|front|..]);
    }
  }

  lemma SpelledParses(s: string, v: VolumeOptions, size: string, flag: string)
    requires Free(v.name, ':') && Spells(s, v, size, flag)
    ensures ParseVolume(s) == Ok(v)
  {
    var parts := SpelledParts(s, v, size, flag);
    ParseBoolExactly(flag, v.fixed);
  }

  // A text put together again from its parts, up to the third.
  lemma Rejoined(s: string) returns (parts: seq<string>)
    ensures parts == Split(s, ':') && forall p | p in parts :: Free(p, ':')
    ensures |parts| == 2 ==> s == parts[0] + ":" + parts[1]
    ensures |parts| == 3 ==> s == parts[0] + ":" + parts[1] + ":" + parts[2]
    ensures |parts| > 3 ==> parts[0] + ":" + parts[1] + ":" + parts[2] + ":" <= s
  {
    parts := Split(s, ':');
    JoinSplit(s, ':');
    if |parts| > 2 {
      var tail := Join(parts[2..], ':');
      assert parts[1..][1..] == parts[2..];
      assert s == parts[0] + ":" + (parts[1] + ":" + tail);
      if |parts| > 3 {
        var rest := Join(parts[2..][1..], ':');
        assert s == (parts[0] + ":" + parts[1] + ":" + parts[2] + ":") + rest;
      } else {
        assert s == parts[0] + ":" + parts[1] + ":" + parts[2];
      }
    }
  }

  lemma AcceptedSpells(s: string)
    requires ParseVolume(s).Ok?
    ensures var v := ParseVolume(s).value; Free(v.name, ':') && exists size, flag :: Spells(s, v, size, flag)
  {
    var v := ParseVolume(s).value;
    var parts := Rejoined(s);
    assert parts[0] in parts;
    if |parts| == 2 {
      assert Spells(s, v, parts[1], "");
    } else {
      assert parts[2] in parts;
      ParseBoolExactly(parts[2], v.fixed);
      assert Spells(s, v, parts[1], parts[2]);
    }
  }
}
