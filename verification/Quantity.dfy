/** Kubernetes quantity strings, read exactly. */
module Quantity {
  import opened Options
  import opened Text
  import opened Decimal

  datatype Error = Empty | MissingMantissa | Scientific | Negative | NotANumber | Overflow | Zero

  const I128_MAX: nat := 0x7FFF_FFFF_FFFF_FFFF_FFFF_FFFF_FFFF_FFFF

  // ------------------------------------------------------------------ suffixes

  function Power(letter: char): (p: nat)
  {
    match letter
    case 'K' => 1
    case 'M' => 2
    case 'G' => 3
    case 'T' => 4
    case 'P' => 5
    case 'E' => 6
    case _ => 0
  }

  function Exp(base: nat, p: nat): (r: nat)
    requires base > 0
    ensures r > 0
  {
    if p == 0 then 1 else base * Exp(base, p - 1)
  }

  datatype Suffix = Bare | Decimal(letter: char) | Binary(letter: char)

  ghost predicate LegalSuffix(u: Suffix)
  {
    u.Bare? || Power(u.letter) > 0
  }

  function SuffixText(u: Suffix): (t: string)
  {
    match u
    case Bare => ""
    case Decimal(c) => [c]
    case Binary(c) => [c, 'i']
  }

  function Multiplier(u: Suffix): (m: nat)
    ensures m > 0
  {
    match u
    case Bare => 1
    case Decimal(c) => Exp(1000, Power(c))
    case Binary(c) => Exp(1024, Power(c))
  }

  /** The powers that the suffixes stand for. */
  lemma SuffixTable()
    ensures Multiplier(Bare) == 1
    ensures Multiplier(Binary('K')) == 1024 && Multiplier(Decimal('K')) == 1_000
    ensures Multiplier(Binary('M')) == 1_048_576 && Multiplier(Decimal('M')) == 1_000_000
    ensures Multiplier(Binary('G')) == 1_073_741_824 && Multiplier(Decimal('G')) == 1_000_000_000
    ensures Multiplier(Binary('T')) == 1_099_511_627_776 && Multiplier(Decimal('T')) == 1_000_000_000_000
    ensures Multiplier(Binary('P')) == 1_125_899_906_842_624 && Multiplier(Decimal('P')) == 1_000_000_000_000_000
    ensures Multiplier(Binary('E')) == 1_152_921_504_606_846_976 && Multiplier(Decimal('E')) == 1_000_000_000_000_000_000
    ensures forall c :: Power(c) > 0 <==> c in "KMGTPE"
  {
    ExpSix(1000);
    ExpSix(1024);
  }

  lemma ExpSix(b: nat)
    requires b > 0
    ensures Exp(b, 1) == b && Exp(b, 2) == b * b && Exp(b, 3) == b * (b * b) && Exp(b, 4) == b * (b * (b * b))
    ensures Exp(b, 5) == b * (b * (b * (b * b))) && Exp(b, 6) == b * (b * (b * (b * (b * b))))
  {
    assert Exp(b, 0) == 1;
    assert Exp(b, 1) == b;
    assert Exp(b, 2) == b * Exp(b, 1);
    assert Exp(b, 3) == b * Exp(b, 2);
    assert Exp(b, 4) == b * Exp(b, 3);
    assert Exp(b, 5) == b * Exp(b, 4);
    assert Exp(b, 6) == b * Exp(b, 5);
  }

  /** The binary suffixes are looked for before the decimal ones. */
  function StripSuffix(s: string): (r: (string, Suffix))
    ensures LegalSuffix(r.1) && s == r.0 + SuffixText(r.1)
  {
    var n := |s|;
    if n >= 2 && s[n - 1] == 'i' && Power(s[n - 2]) > 0 then (s[..n - 2], Binary(s[n - 2]))
    else if n >= 1 && Power(s[n - 1]) > 0 then (s[..n - 1], Decimal(s[n - 1]))
    else (s, Bare)
  }

  // ------------------------------------------------------------------- parsing

  function Pow10(n: nat): (r: nat)
    ensures r > 0
  {
    if n == 0 then 1 else 10 * Pow10(n - 1)
  }

  /** `checked` arithmetic: the value, unless it leaves the i128 range. */
  function Checked(n: nat): (r: Result<nat, Error>)
  {
    if n > I128_MAX then Err(Overflow) else Ok(n)
  }

  function Times(a: nat, b: nat): (r: nat)
  {
    a * b
  }

  function Div(a: nat, b: nat): (r: nat)
    requires b > 0
  {
    a / b
  }

  function CheckedMul(a: nat, b: nat): (r: Result<nat, Error>)
  {
    Checked(Times(a, b))
  }

  /** A possibly empty digit string as an i128. */
  function ParseDigits(s: string): (r: Result<nat, Error>)
    requires AllDigits(s)
  {
    if s == "" then Ok(0) else Checked(Value(s))
  }

  function ScaledDigits(whole: string, fraction: string): (r: Result<nat, Error>)
    requires AllDigits(whole) && AllDigits(fraction)
  {
    var w := ParseDigits(whole);
    if w.Err? then w
    else
      var scale := Checked(Pow10(|fraction|));
      if scale.Err? then scale
      else
        var f := ParseDigits(fraction);
        if f.Err? then f
        else
          var shifted := CheckedMul(w.value, scale.value);
          if shifted.Err? then shifted else Checked(shifted.value + f.value)
  }

  function ParseMantissa(whole: string, fraction: string, multiplier: nat): (r: Result<nat, Error>)
    requires AllDigits(whole) && AllDigits(fraction)
  {
    var scaled := ScaledDigits(whole, fraction);
    if scaled.Err? then scaled
    else if scaled.value == 0 then Err(Zero)
    else
      var bytes := CheckedMul(scaled.value, multiplier);
      if bytes.Err? then bytes else Ok(Div(bytes.value, Pow10(|fraction|)))
  }

  function ParseQuantity(s: string): (r: Result<nat, Error>)
  {
    if s == "" then Err(Empty)
    else
      var (mantissa, suffix) := StripSuffix(s);
      if mantissa == "" then Err(MissingMantissa)
      else if 'e' in mantissa || 'E' in mantissa then Err(Scientific)
      else if mantissa[0] == '-' then Err(Negative)
      else
        var parts := SplitOnce(mantissa, '.');
        var whole := if parts.Some? then parts.value.0 else mantissa;
        var fraction := if parts.Some? then parts.value.1 else "";
        if whole == "" && fraction == "" then Err(NotANumber)
        else if !AllDigits(whole) || !AllDigits(fraction) then Err(NotANumber)
        else ParseMantissa(whole, fraction, Multiplier(suffix))
  }

  // ----------------------------------------------------- spellings and meaning

  /** A quantity as it is written: digits, optionally a point and more digits, and a suffix. */
  datatype Spelling = Spelling(whole: string, fraction: Option<string>, suffix: Suffix)

  function Fraction(q: Spelling): (t: string)
  {
    if q.fraction.None? then "" else q.fraction.value
  }

  ghost predicate Legal(q: Spelling)
  {
    && AllDigits(q.whole) && AllDigits(Fraction(q)) && LegalSuffix(q.suffix)
    && (q.whole != "" || Fraction(q) != "")
  }

  function Mantissa(q: Spelling): (t: string)
  {
    if q.fraction.None? then q.whole else q.whole + ['.'] + q.fraction.value
  }

  function Spell(q: Spelling): (t: string)
  {
    Mantissa(q) + SuffixText(q.suffix)
  }

  /** All digits of the mantissa, read as one number. */
  function Digits(q: Spelling): (n: nat)
    requires Legal(q)
  {
    Value(q.whole + Fraction(q))
  }

  /** The digits times the suffix multiplier. */
  function Product(q: Spelling): (n: nat)
    requires Legal(q)
  {
    Times(Digits(q), Multiplier(q.suffix))
  }

  /** The number of bytes a spelling denotes, before rounding. */
  ghost function Denoted(q: Spelling): (v: real)
    requires Legal(q)
  {
    Product(q) as real / Pow10(|Fraction(q)|) as real
  }

  /** The condition under which a legal spelling is accepted. */
  predicate Fits(q: Spelling)
    requires Legal(q)
  {
    Pow10(|Fraction(q)|) <= I128_MAX && 0 < Digits(q) && Product(q) <= I128_MAX
  }

  lemma TimesTen(a: nat, b: nat)
    ensures a * (10 * b) == 10 * (a * b)
  {
  }

  lemma {:induction false} ValueConcat(a: string, b: string)
    requires AllDigits(a) && AllDigits(b)
    ensures Value(a + b) == Value(a) * Pow10(|b|) + Value(b)
  {
    if b == "" {
      assert a + b == a;
    } else {
      var n := |b| - 1;
      ValueConcat(a, b[..n]);
      assert (a + b)[..|a + b| - 1] == a + b[..n];
      TimesTen(Value(a), Pow10(n));
    }
  }

  lemma {:induction false} ValueBelowPower(a: string)
    requires AllDigits(a)
    ensures Value(a) < Pow10(|a|)
  {
    if a != "" {
      ValueBelowPower(a[..|a| - 1]);
    }
  }

  lemma ProductAtLeast(a: nat, b: nat)
    requires b > 0
    ensures a <= a * b
  {
  }

  lemma ScaledDigitsIs(q: Spelling)
    requires Legal(q)
    ensures ScaledDigits(q.whole, Fraction(q))
      == if Pow10(|Fraction(q)|) > I128_MAX || Digits(q) > I128_MAX then Err(Overflow) else Ok(Digits(q))
  {
    hide Pow10, Value;
    var w, scale := Value(q.whole), Pow10(|Fraction(q)|);
    ValueConcat(q.whole, Fraction(q));
    ValueBelowPower(Fraction(q));
    ProductAtLeast(w, scale);
    EmptyDigits(q.whole);
    EmptyDigits(Fraction(q));
  }

  lemma EmptyDigits(s: string)
    requires AllDigits(s)
    ensures ParseDigits(s) == Checked(Value(s))
  {
  }

  /** The checked steps together accept exactly what the final bounds allow, and divide once. */
  lemma ParseMantissaIs(q: Spelling)
    requires Legal(q)
    ensures var r := ParseMantissa(q.whole, Fraction(q), Multiplier(q.suffix));
      if Fits(q) then r == Ok(Product(q) / Pow10(|Fraction(q)|))
      else if Digits(q) == 0 && Pow10(|Fraction(q)|) <= I128_MAX then r == Err(Zero)
      else r == Err(Overflow)
  {
    hide Pow10, Digits, ScaledDigits, Multiplier, Fraction;
    ScaledDigitsIs(q);
    ProductAtLeast(Digits(q), Multiplier(q.suffix));
  }

  lemma MantissaOf(q: Spelling)
    requires Legal(q)
    ensures Mantissa(q) != "" && 'e' !in Mantissa(q) && 'E' !in Mantissa(q) && Mantissa(q)[0] != '-'
    ensures Power(Mantissa(q)[|Mantissa(q)| - 1]) == 0 && Mantissa(q)[|Mantissa(q)| - 1] != 'i'
    ensures SplitOnce(Mantissa(q), '.') == if q.fraction.None? then None else Some((q.whole, q.fraction.value))
  {
    assert Without(q.whole, '.');
    if q.fraction.Some? {
      SplitOnceOf(q.whole, q.fraction.value, '.');
    }
  }

  lemma StripOf(q: Spelling)
    requires Legal(q)
    ensures StripSuffix(Spell(q)) == (Mantissa(q), q.suffix)
  {
    MantissaOf(q);
    var s, b := Spell(q), Mantissa(q);
    match q.suffix
    case Bare =>
      assert s == b;
    case Decimal(c) =>
      assert s[|s| - 1] == c && s[..|s| - 1] == b;
    case Binary(c) =>
      assert s[|s| - 1] == 'i' && s[|s| - 2] == c && s[..|s| - 2] == b;
  }

  /** What the parser answers for every legal spelling. */
  lemma ParseOfSpelling(q: Spelling)
    requires Legal(q)
    ensures var r := ParseQuantity(Spell(q));
      if Fits(q) then r == Ok(Product(q) / Pow10(|Fraction(q)|))
      else if Digits(q) == 0 && Pow10(|Fraction(q)|) <= I128_MAX then r == Err(Zero)
      else r == Err(Overflow)
  {
    hide Pow10, Digits, Multiplier, ParseMantissa, StripSuffix;
    MantissaOf(q);
    StripOf(q);
    ParseMantissaIs(q);
    assert Spell(q) != "";
  }

  /** The spelling a text has, whether or not it is legal. */
  function SpellingOf(s: string): (q: Spelling)
    ensures Spell(q) == s
  {
    var (mantissa, suffix) := StripSuffix(s);
    var parts := SplitOnce(mantissa, '.');
    if parts.None? then Spelling(mantissa, None, suffix)
    else Spelling(parts.value.0, Some(parts.value.1), suffix)
  }

  /** Every other text is refused as malformed. */
  lemma ParseOfMalformed(s: string)
    requires !Legal(SpellingOf(s))
    ensures ParseQuantity(s).Err? && !ParseQuantity(s).error.Overflow? && !ParseQuantity(s).error.Zero?
  {
  }

  lemma StripsNothing(s: string)
    requires s != "" && IsDigit(s[|s| - 1])
    ensures StripSuffix(s) == (s, Bare)
  {
  }

  /** The refusals by name: nothing at all, a suffix alone, a minus sign, an exponent. */
  lemma RefusalKinds(n: nat, k: nat, u: Suffix)
    requires LegalSuffix(u)
    ensures ParseQuantity("") == Err(Empty)
    ensures !u.Bare? ==> ParseQuantity(SuffixText(u)) == Err(MissingMantissa)
    ensures ParseQuantity(['-'] + Print(n)) == Err(Negative)
    ensures ParseQuantity(Print(n) + ['e'] + Print(k)) == Err(Scientific)
    ensures ParseQuantity(Print(n) + ['E'] + Print(k)) == Err(Scientific)
  {
    hide Print, ParseMantissa, Multiplier, SplitOnce;
    var minus, low, up := ['-'] + Print(n), Print(n) + ['e'] + Print(k), Print(n) + ['E'] + Print(k);
    StripsNothing(minus);
    StripsNothing(low);
    StripsNothing(up);
    assert forall i :: 0 <= i < |Print(n)| ==> minus[i + 1] == Print(n)[i];
    assert low[|Print(n)|] == 'e' && up[|Print(n)|] == 'E';
    if !u.Bare? {
      SuffixAlone(u);
    }
  }

  lemma SuffixAlone(u: Suffix)
    requires LegalSuffix(u) && !u.Bare?
    ensures StripSuffix(SuffixText(u)) == ("", u)
  {
  }

  lemma AtMostQuotient(r: int, a: nat, b: nat)
    requires b > 0
    ensures r * b <= a <==> r as real <= a as real / b as real
  {
    var x, y := a as real / b as real, b as real;
    assert x * y == a as real;
    assert (r * b) as real == r as real * y;
    if r as real <= x {
      assert r as real * y <= x * y;
    } else {
      assert r as real * y > x * y;
    }
  }

  lemma FloorOfQuotient(a: nat, b: nat)
    requires b > 0
    ensures (a as real / b as real).Floor == a / b
  {
    var r := a / b;
    AtMostQuotient(r, a, b);
    AtMostQuotient(r + 1, a, b);
  }

  /**
   Exactness: a text is accepted exactly when it is a legal spelling that fits,
   and the result is then the denoted number of bytes rounded down.
   */
  lemma QuantityIsExact(s: string)
    ensures ParseQuantity(s).Ok? <==> Legal(SpellingOf(s)) && Fits(SpellingOf(s))
    ensures ParseQuantity(s).Ok? ==> ParseQuantity(s).value == Denoted(SpellingOf(s)).Floor
  {
    hide Pow10, Digits, Product, ParseQuantity, SpellingOf;
    var q := SpellingOf(s);
    if Legal(q) {
      ParseOfSpelling(q);
      FloorOfQuotient(Product(q), Pow10(|Fraction(q)|));
    } else {
      ParseOfMalformed(s);
    }
  }

  /** Zero is refused, but an accepted quantity of less than one byte rounds down to it. */
  lemma LessThanOneByte(s: string)
    ensures ParseQuantity(s) == Ok(0) <==> ParseQuantity(s).Ok? && 0.0 < Denoted(SpellingOf(s)) < 1.0
  {
    hide Pow10, Digits, Product, ParseQuantity, SpellingOf;
    QuantityIsExact(s);
    if ParseQuantity(s).Ok? {
      FitsIsPositive(SpellingOf(s));
    }
  }

  lemma FitsIsPositive(q: Spelling)
    requires Legal(q) && Fits(q)
    ensures Denoted(q) > 0.0
  {
    hide Pow10, Digits, Multiplier;
    ProductAtLeast(Digits(q), Multiplier(q.suffix));
  }

  /** Accepted quantities compare as the numbers they denote, however they are spelled. */
  lemma QuantityIsMonotone(s: string, t: string)
    requires ParseQuantity(s).Ok? && ParseQuantity(t).Ok?
    ensures Legal(SpellingOf(s)) && Legal(SpellingOf(t))
    ensures Denoted(SpellingOf(s)) <= Denoted(SpellingOf(t)) ==> ParseQuantity(s).value <= ParseQuantity(t).value
    ensures Denoted(SpellingOf(s)) == Denoted(SpellingOf(t)) ==> ParseQuantity(s) == ParseQuantity(t)
  {
    hide Pow10, Digits, Product, ParseQuantity, SpellingOf;
    QuantityIsExact(s);
    QuantityIsExact(t);
  }

  lemma CommonFactor(a: nat, b: nat)
    requires b > 0
    ensures 10 * a / (10 * b) == a / b
  {
    var r := a / b;
    assert r * b <= a < (r + 1) * b;
    assert r * (10 * b) <= 10 * a < (r + 1) * (10 * b);
  }

  lemma ValueOfZero()
    ensures Value("0") == 0 && Pow10(|"0"|) == 10
  {
    assert "0"[..0] == "";
  }

  lemma TrailingZeroDigits(q: Spelling)
    requires Legal(q) && q.fraction.Some?
    ensures var z := q.(fraction := Some(q.fraction.value + "0"));
      Legal(z) && Digits(z) == 10 * Digits(q) && Pow10(|Fraction(z)|) == 10 * Pow10(|Fraction(q)|)
  {
    hide Value;
    var z := q.(fraction := Some(q.fraction.value + "0"));
    ValueOfZero();
    ValueConcat(q.whole + Fraction(q), "0");
    assert z.whole + Fraction(z) == q.whole + Fraction(q) + "0";
  }

  /** A trailing zero after the point never changes an accepted quantity's value. */
  lemma TrailingZero(q: Spelling)
    requires Legal(q) && q.fraction.Some?
    ensures var z := q.(fraction := Some(q.fraction.value + "0"));
      && Legal(z)
      && (Fits(z) ==> Fits(q) && ParseQuantity(Spell(z)) == ParseQuantity(Spell(q)))
  {
    hide Pow10, Digits, Multiplier, ParseQuantity, Spell, AllDigits;
    var z := q.(fraction := Some(q.fraction.value + "0"));
    TrailingZeroDigits(q);
    TimesTen(Multiplier(q.suffix), Digits(q));
    ParseOfSpelling(q);
    ParseOfSpelling(z);
    CommonFactor(Product(q), Pow10(|Fraction(q)|));
  }

  /** Printing a positive integer with a suffix is undone, whenever the product fits. */
  lemma PrintedQuantity(n: nat, suffix: Suffix)
    requires LegalSuffix(suffix) && 0 < n && n * Multiplier(suffix) <= I128_MAX
    ensures ParseQuantity(Print(n) + SuffixText(suffix)) == Ok(n * Multiplier(suffix))
  {
    hide Multiplier, ParseQuantity, Value, Print;
    var q := Spelling(Print(n), None, suffix);
    PrintValue(n);
    assert q.whole + Fraction(q) == Print(n);
    ParseOfSpelling(q);
  }
}
