/** Substring search and trimming with the meaning they have for Rust strings. */
module Text {
  import opened Options

  predicate MatchesAt(s: string, pat: string, i: nat)
  {
    i + |pat| <= |s| && s[i..i + |pat|] == pat
  }

  /** The index of the first occurrence at or after `from`. */
  function FindFrom(s: string, pat: string, from: nat): (r: Option<nat>)
    requires from <= |s|
    ensures r.Some? ==> from <= r.value && MatchesAt(s, pat, r.value)
    ensures r.Some? ==> forall i :: from <= i < r.value ==> !MatchesAt(s, pat, i)
    ensures r.None? ==> forall i :: from <= i <= |s| ==> !MatchesAt(s, pat, i)
    decreases |s| - from
  {
    if MatchesAt(s, pat, from) then Some(from)
    else if from == |s| then None
    else FindFrom(s, pat, from + 1)
  }

  function Find(s: string, pat: string): (r: Option<nat>)
    ensures r.Some? ==> MatchesAt(s, pat, r.value) && forall i :: 0 <= i < r.value ==> !MatchesAt(s, pat, i)
    ensures r.None? ==> forall i :: 0 <= i <= |s| ==> !MatchesAt(s, pat, i)
  {
    FindFrom(s, pat, 0)
  }

  /** The characters with the Unicode White_Space property. */
  predicate IsWhitespace(c: char)
  {
    || '\t' <= c <= '\r' || c == ' ' || c == '\U{0085}' || c == '\U{00A0}' || c == '\U{1680}'
    || '\U{2000}' <= c <= '\U{200A}' || c == '\U{2028}' || c == '\U{2029}' || c == '\U{202F}'
    || c == '\U{205F}' || c == '\U{3000}'
  }

  function TrimStart(s: string): (r: string)
  {
    if s != [] && IsWhitespace(s[0]) then TrimStart(s[1..]) else s
  }

  function TrimEnd(s: string): (r: string)
  {
    if s != [] && IsWhitespace(s[|s| - 1]) then TrimEnd(s[..|s| - 1]) else s
  }

  function Trim(s: string): (r: string)
  {
    TrimEnd(TrimStart(s))
  }

  ghost predicate Without(s: string, c: char)
  {
    c !in s
  }

  /** A text splits at its first separator in only one way. */
  lemma FirstSeparator(a: string, x: string, b: string, y: string, c: char)
    requires Without(a, c) && Without(b, c) && a + [c] + x == b + [c] + y
    ensures a == b && x == y
  {
    var s := a + [c] + x;
    assert s[|a|] == c && s[|b|] == c;
    assert forall i :: 0 <= i < |a| ==> s[i] == a[i];
    assert forall i :: 0 <= i < |b| ==> s[i] == b[i];
    assert !(|a| < |b|) && !(|b| < |a|);
    assert a == s[..|a|] == b;
    assert x == s[|a| + 1..] == y;
  }

  /** A text splits at its last separator in only one way. */
  lemma LastSeparator(a: string, x: string, b: string, y: string, c: char)
    requires Without(x, c) && Without(y, c) && a + [c] + x == b + [c] + y
    ensures a == b && x == y
  {
    var s := a + [c] + x;
    assert s[|a|] == c && s[|b|] == c;
    assert forall i :: |a| < i < |s| ==> s[i] == x[i - |a| - 1];
    assert forall i :: |b| < i < |s| ==> s[i] == y[i - |b| - 1];
    assert |a| == |b|;
    assert a == s[..|a|] == b;
    assert x == s[|a| + 1..] == y;
  }

  /** `split_once`: the parts before and after the first separator. */
  function SplitOnce(s: string, c: char): (r: Option<(string, string)>)
    ensures r.Some? ==> s == r.value.0 + [c] + r.value.1 && Without(r.value.0, c)
    ensures r.None? ==> Without(s, c)
  {
    if s == [] then None
    else if s[0] == c then Some(([], s[1..]))
    else
      var r := SplitOnce(s[1..], c);
      assert s == [s[0]] + s[1..];
      if r.None? then None else Some(([s[0]] + r.value.0, r.value.1))
  }

  lemma SplitOnceOf(a: string, x: string, c: char)
    requires Without(a, c)
    ensures SplitOnce(a + [c] + x, c) == Some((a, x))
  {
    var s := a + [c] + x;
    assert s[|a|] == c;
    var r := SplitOnce(s, c);
    FirstSeparator(a, x, r.value.0, r.value.1, c);
  }
}
