/** Decimal printing and parsing of integers, as Rust's `to_string` and `parse` do it. */
module Decimal {
  import opened Options

  predicate IsDigit(c: char) { '0' <= c <= '9' }

  predicate AllDigits(s: string)
  {
    forall i :: 0 <= i < |s| ==> IsDigit(s[i])
  }

  function Value(s: string): (n: nat)
    requires AllDigits(s)
  {
    if s == [] then 0 else 10 * Value(s[..|s| - 1]) + (s[|s| - 1] as int - '0' as int)
  }

  function DigitChar(d: nat): (c: char)
    requires d < 10
  {
    '0' + d as char
  }

  function Print(n: nat): (s: string)
    ensures s != [] && AllDigits(s)
  {
    if n < 10 then [DigitChar(n)] else Print(n / 10) + [DigitChar(n % 10)]
  }

  lemma {:induction false} PrintValue(n: nat)
    ensures Value(Print(n)) == n
  {
    if n < 10 {
      assert Print(n)[..0] == [];
    } else {
      PrintValue(n / 10);
      assert Print(n)[..|Print(n)| - 1] == Print(n / 10);
    }
  }

  /** `str::parse` for an unsigned type with the given maximum; a leading plus sign is allowed. */
  function ParseUnsigned(s: string, max: nat): (r: Option<nat>)
  {
    var digits := if s != [] && s[0] == '+' then s[1..] else s;
    if digits == [] || !AllDigits(digits) || Value(digits) > max then None else Some(Value(digits))
  }

  lemma ParsePrint(n: nat, max: nat)
    requires n <= max
    ensures ParseUnsigned(Print(n), max) == Some(n)
  {
    PrintValue(n);
  }

  /** A leading plus sign is allowed. */
  lemma ParsePlus(n: nat, max: nat)
    requires n <= max
    ensures ParseUnsigned(['+'] + Print(n), max) == Some(n)
  {
    PrintValue(n);
    assert (['+'] + Print(n))[1..] == Print(n);
  }

  const I32_MIN: int := -0x8000_0000
  const I32_MAX: int := 0x7FFF_FFFF

  function PrintInt(i: int): (s: string)
  {
    if i < 0 then "-" + Print(-i) else Print(i)
  }

  /** `str::parse::<i32>`. */
  function ParseI32(s: string): (r: Option<int>)
  {
    var negative := s != [] && s[0] == '-';
    var digits := if s != [] && (s[0] == '-' || s[0] == '+') then s[1..] else s;
    if digits == [] || !AllDigits(digits) then None
    else
      var m: int := Value(digits);
      var v := if negative then -m else m;
      if I32_MIN <= v <= I32_MAX then Some(v) else None
  }

  lemma ParseI32Print(i: int)
    requires I32_MIN <= i <= I32_MAX
    ensures ParseI32(PrintInt(i)) == Some(i)
    ensures '.' !in PrintInt(i)
  {
    if i < 0 {
      PrintValue(-i);
      assert PrintInt(i)[1..] == Print(-i);
    } else {
      PrintValue(i);
    }
  }
}
