/** Kafka version strings and the compatibility rule between binary and metadata version. */
module KafkaVersion {
  import opened Options
  import opened Text
  import opened Decimal

  const U32_MAX: nat := 0xFFFF_FFFF

  datatype Version = Version(major: nat, minor: nat, patch: nat)

  ghost predicate IsU32(v: Version)
  {
    v.major <= U32_MAX && v.minor <= U32_MAX && v.patch <= U32_MAX
  }

  function Before(s: string, c: char): (r: string)
  {
    var parts := SplitOnce(s, c);
    if parts.None? then s else parts.value.0
  }

  /** `str::split` on one character. */
  function SplitAll(s: string, c: char): (r: seq<string>)
    ensures r != []
    decreases |s|
  {
    var parts := SplitOnce(s, c);
    if parts.None? then [s] else [parts.value.0] + SplitAll(parts.value.1, c)
  }

  /** The component at `i`, or zero when there are fewer. */
  function Component(parts: seq<string>, i: nat): (r: Option<nat>)
  {
    if i < |parts| then ParseUnsigned(parts[i], U32_MAX) else Some(0)
  }

  function Parse(s: string): (r: Option<Version>)
    ensures r.Some? ==> IsU32(r.value)
  {
    var trimmed := Trim(s);
    if trimmed == "" then None else FromParts(SplitAll(Before(trimmed, '-'), '.'))
  }

  function FromParts(parts: seq<string>): (r: Option<Version>)
    ensures r.Some? ==> IsU32(r.value)
  {
    var major, minor, patch := Component(parts, 0), Component(parts, 1), Component(parts, 2);
    if major.None? || minor.None? || patch.None? || |parts| > 3 then None
    else Some(Version(major.value, minor.value, patch.value))
  }

  function Short(v: Version): (t: string)
  {
    Print(v.major) + ['.'] + Print(v.minor)
  }

  /** The order of the `(major, minor)` keys. */
  predicate KeyLess(a: Version, b: Version)
  {
    a.major < b.major || (a.major == b.major && a.minor < b.minor)
  }

  // --------------------------------------------------------------- round trips

  ghost predicate Solid(s: string)
  {
    s != "" && !IsWhitespace(s[0]) && !IsWhitespace(s[|s| - 1])
  }

  lemma {:induction false} TrimEndKeeps(a: string, x: string)
    requires a != "" && !IsWhitespace(a[|a| - 1])
    ensures TrimEnd(a + x) == a + TrimEnd(x)
  {
    hide IsWhitespace;
    if x == "" {
      assert a + x == a;
    } else {
      assert (a + x)[..|a + x| - 1] == a + x[..|x| - 1];
      TrimEndKeeps(a, x[..|x| - 1]);
    }
  }

  lemma TrimKeeps(a: string, x: string)
    requires Solid(a)
    ensures Trim(a + x) == a + TrimEnd(x)
  {
    hide IsWhitespace;
    TrimEndKeeps(a, x);
    assert (a + x)[0] == a[0];
  }

  ghost predicate Plain(s: string)
  {
    s != "" && forall i :: 0 <= i < |s| ==> IsDigit(s[i]) || s[i] == '.'
  }

  /** Surrounding an IBP suffix around a plain version, or none, does not change how it parses. */
  lemma SuffixIsDropped(s: string, x: string)
    requires Plain(s)
    ensures Parse(s + ['-'] + x) == Parse(s)
  {
    var a := s + ['-'];
    assert Solid(s) && Solid(a);
    TrimKeeps(a, x);
    TrimKeeps(s, "");
    assert s + "" == s;
    assert Without(s, '-');
    SplitOnceOf(s, TrimEnd(x), '-');
    assert a + TrimEnd(x) == s + ['-'] + TrimEnd(x);
    assert Before(s + ['-'] + TrimEnd(x), '-') == s;
    assert Before(s, '-') == s;
  }

  lemma PrintHasNoDot(n: nat)
    ensures Without(Print(n), '.') && Without(Print(n), '-')
  {
  }

  lemma SplitShort(v: Version)
    ensures SplitAll(Short(v), '.') == [Print(v.major), Print(v.minor)]
  {
    hide Print;
    PrintHasNoDot(v.major);
    PrintHasNoDot(v.minor);
    SplitOnceOf(Print(v.major), Print(v.minor), '.');
  }

  lemma PlainIsItsOwnCore(s: string)
    requires Plain(s)
    ensures Trim(s) == s && Before(s, '-') == s
  {
    assert Solid(s);
    TrimKeeps(s, "");
    assert s + "" == s;
    assert Without(s, '-');
  }

  /** The canonical rendering reads back to the same metadata key. */
  lemma ParseShort(v: Version)
    requires IsU32(v)
    ensures Parse(Short(v)) == Some(v.(patch := 0))
  {
    hide Print, ParseUnsigned;
    assert Plain(Short(v));
    PlainIsItsOwnCore(Short(v));
    SplitShort(v);
    ParsePrint(v.major, U32_MAX);
    ParsePrint(v.minor, U32_MAX);
  }

  lemma SplitFull(v: Version)
    ensures SplitAll(Short(v) + ['.'] + Print(v.patch), '.') == [Print(v.major), Print(v.minor), Print(v.patch)]
  {
    hide Print;
    var rest := Print(v.minor) + ['.'] + Print(v.patch);
    PrintHasNoDot(v.major);
    PrintHasNoDot(v.minor);
    PrintHasNoDot(v.patch);
    assert Short(v) + ['.'] + Print(v.patch) == Print(v.major) + ['.'] + rest;
    SplitOnceOf(Print(v.major), rest, '.');
    SplitOnceOf(Print(v.minor), Print(v.patch), '.');
    assert SplitAll(rest, '.') == [Print(v.minor), Print(v.patch)];
  }

  /** So does the full rendering, patch included, with any feature suffix behind it. */
  lemma ParseFull(v: Version, x: string)
    requires IsU32(v)
    ensures Parse(Short(v) + ['.'] + Print(v.patch)) == Some(v)
    ensures Parse(Short(v) + ['.'] + Print(v.patch) + ['-'] + x) == Some(v)
  {
    hide Print, ParseUnsigned, SplitAll;
    var s := Short(v) + ['.'] + Print(v.patch);
    assert Plain(s);
    PlainIsItsOwnCore(s);
    SplitFull(v);
    ParsePrint(v.major, U32_MAX);
    ParsePrint(v.minor, U32_MAX);
    ParsePrint(v.patch, U32_MAX);
    SuffixIsDropped(s, x);
  }

  /** Components with dots between them. */
  function JoinDots(cs: seq<string>): (t: string)
    requires cs != []
  {
    if |cs| == 1 then cs[0] else cs[0] + ['.'] + JoinDots(cs[1..])
  }

  ghost predicate Tight(s: string)
  {
    forall i :: 0 <= i < |s| ==> s[i] != '-' && !IsWhitespace(s[i])
  }

  lemma {:induction false} SplitJoined(cs: seq<string>)
    requires cs != [] && forall i :: 0 <= i < |cs| ==> Without(cs[i], '.')
    ensures SplitAll(JoinDots(cs), '.') == cs
  {
    if |cs| > 1 {
      SplitOnceOf(cs[0], JoinDots(cs[1..]), '.');
      SplitJoined(cs[1..]);
      assert cs == [cs[0]] + cs[1..];
    }
  }

  lemma {:induction false} JoinedIsTight(cs: seq<string>)
    requires cs != [] && forall i :: 0 <= i < |cs| ==> Tight(cs[i])
    ensures Tight(JoinDots(cs))
  {
    hide IsWhitespace;
    if |cs| > 1 {
      JoinedIsTight(cs[1..]);
      DotIsSolid();
    }
  }

  lemma DotIsSolid()
    ensures !IsWhitespace('.')
  {
  }

  lemma TightIsItsOwnCore(s: string)
    requires Tight(s) && s != ""
    ensures Trim(s) == s && Before(s, '-') == s
  {
    hide IsWhitespace;
    assert Solid(s);
    TrimKeeps(s, "");
    assert s + "" == s;
    assert Without(s, '-');
  }

  /**
   Exactly which dotted texts are versions: one to three components, each a u32;
   missing ones are zero.
   */
  lemma ParseOfComponents(cs: seq<string>)
    requires cs != [] && forall i :: 0 <= i < |cs| ==> Without(cs[i], '.') && Tight(cs[i])
    ensures Parse(JoinDots(cs)).Some? <==> |cs| <= 3 && forall i :: 0 <= i < |cs| ==> ParseUnsigned(cs[i], U32_MAX).Some?
    ensures Parse(JoinDots(cs)).Some? ==>
      var v := Parse(JoinDots(cs)).value;
      && Some(v.major) == ParseUnsigned(cs[0], U32_MAX)
      && Some(v.minor) == (if |cs| > 1 then ParseUnsigned(cs[1], U32_MAX) else Some(0))
      && Some(v.patch) == (if |cs| > 2 then ParseUnsigned(cs[2], U32_MAX) else Some(0))
  {
    hide IsWhitespace, ParseUnsigned, SplitAll, FromParts, JoinDots, Without, Trim, Before;
    SplitJoined(cs);
    JoinedIsTight(cs);
    FromPartsIff(cs);
    if JoinDots(cs) == "" {
      EmptyJoin(cs);
    } else {
      TightIsItsOwnCore(JoinDots(cs));
    }
  }

  lemma FromPartsIff(cs: seq<string>)
    requires cs != []
    ensures FromParts(cs).Some? <==> |cs| <= 3 && forall i :: 0 <= i < |cs| ==> ParseUnsigned(cs[i], U32_MAX).Some?
    ensures FromParts(cs).Some? ==>
      var v := FromParts(cs).value;
      && Some(v.major) == ParseUnsigned(cs[0], U32_MAX)
      && Some(v.minor) == (if |cs| > 1 then ParseUnsigned(cs[1], U32_MAX) else Some(0))
      && Some(v.patch) == (if |cs| > 2 then ParseUnsigned(cs[2], U32_MAX) else Some(0))
  {
    hide ParseUnsigned;
    if |cs| <= 3 && Component(cs, 0).Some? && Component(cs, 1).Some? && Component(cs, 2).Some? {
      forall i | 0 <= i < |cs| ensures ParseUnsigned(cs[i], U32_MAX).Some? {
        assert ParseUnsigned(cs[i], U32_MAX) == Component(cs, i);
      }
    }
  }

  lemma EmptyJoin(cs: seq<string>)
    requires cs != [] && JoinDots(cs) == ""
    ensures Parse("") == None && FromParts(cs) == None
  {
  }

  // ------------------------------------------------------------------ evaluate

  datatype Reason = InvalidVersion | TooHigh | TooLow

  datatype Outcome = Valid(resolved: string) | Invalid(reason: Reason)

  /** The feature level of a canonical version, the lowest supported one, and the online-downgrade floor. */
  datatype Levels = Levels(of: string -> Option<int>, min: int, downgradeMin: int)

  function Evaluate(kafkaVersion: string, pin: Option<string>, finalized: Option<string>, levels: Levels): (r: Outcome)
  {
    var binary := Parse(kafkaVersion);
    if binary.None? then Invalid(InvalidVersion)
    else
      var resolved := if pin.Some? then Parse(pin.value) else binary;
      if resolved.None? then Invalid(InvalidVersion)
      else if KeyLess(binary.value, resolved.value) then Invalid(TooHigh)
      else
        var level := levels.of(Short(resolved.value));
        if level.None? || level.value < levels.min then Invalid(TooLow)
        else
          var done := if finalized.Some? then Parse(finalized.value) else None;
          if done.Some? && KeyLess(resolved.value, done.value) && level.value < levels.downgradeMin then Invalid(TooLow)
          else Valid(Short(resolved.value))
  }

  /** The version the metadata should run: the pin, or the binary's own. */
  function Wanted(kafkaVersion: string, pin: Option<string>): (v: Option<Version>)
  {
    Parse(if pin.Some? then pin.value else kafkaVersion)
  }

  /** An accepted downgrade of a finalized version stays at or above the online floor. */
  ghost predicate AboveFloor(v: Version, finalized: Option<string>, levels: Levels)
  {
    finalized.Some? && Parse(finalized.value).Some? && KeyLess(v, Parse(finalized.value).value)
    ==> levels.of(Short(v)).Some? && levels.of(Short(v)).value >= levels.downgradeMin
  }

  ghost predicate Supported(v: Version, levels: Levels)
  {
    levels.of(Short(v)).Some? && levels.of(Short(v)).value >= levels.min
  }

  /** Exactly when an evaluation is valid, and what each refusal means. */
  lemma EvaluateIff(kafkaVersion: string, pin: Option<string>, finalized: Option<string>, levels: Levels)
    ensures var r, binary, v := Evaluate(kafkaVersion, pin, finalized, levels), Parse(kafkaVersion), Wanted(kafkaVersion, pin);
      && (r.Valid? <==> binary.Some? && v.Some? && !KeyLess(binary.value, v.value)
                        && Supported(v.value, levels) && AboveFloor(v.value, finalized, levels))
      && (r == Invalid(InvalidVersion) <==> binary.None? || v.None?)
      && (r == Invalid(TooHigh) <==> binary.Some? && v.Some? && KeyLess(binary.value, v.value))
  {
    hide Parse, Short;
  }

  /** A version as the metadata key sees it. */
  ghost predicate Names(t: string, v: Version)
  {
    IsU32(v) && v.patch == 0 && t == Short(v)
  }

  /**
   What a valid outcome promises: the resolved text is canonical, its level is
   supported, the binary is at least as new, and a downgrade from the
   finalized version stays at or above the online floor.
   */
  lemma ValidMeans(kafkaVersion: string, pin: Option<string>, finalized: Option<string>, levels: Levels) returns (v: Version)
    requires Evaluate(kafkaVersion, pin, finalized, levels).Valid?
    ensures var r := Evaluate(kafkaVersion, pin, finalized, levels).resolved;
      && Names(r, v) && Parse(r) == Some(v)
      && Parse(kafkaVersion).Some? && !KeyLess(Parse(kafkaVersion).value, v)
      && levels.of(r).Some? && levels.of(r).value >= levels.min
      && (finalized.Some? && Parse(finalized.value).Some? && KeyLess(v, Parse(finalized.value).value)
          ==> levels.of(r).value >= levels.downgradeMin)
  {
    hide Parse, Short;
    var p := (if pin.Some? then Parse(pin.value) else Parse(kafkaVersion)).value;
    v := p.(patch := 0);
    ShortIgnoresPatch(p);
    ParseShort(v);
  }

  lemma ShortIgnoresPatch(v: Version)
    ensures Short(v) == Short(v.(patch := 0))
  {
  }
}
