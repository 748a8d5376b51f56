/** Reading a printed decimal back: exactly when the number survives, and exactly when it is refused. */
module DecimalProofs {
  import opened Options
  import opened Texts
  import opened Decimals

  /** NFKC leaves ASCII text alone (section 1.1 of UAX #15). */
  ghost predicate KeepsAscii(nfkc: string -> string) {
    forall s :: IsAscii(s) ==> nfkc(s) == s
  }

  predicate IsAscii(s: string) { forall i | 0 <= i < |s| :: s[i] < '\U{80}' }

  // ---- numerals

  lemma {:induction false} NumberAppend(s: string, t: string)
    requires AllDigits(s) && AllDigits(t)
    ensures Number(s + t) == Number(s) * Pow10(|t|) + Number(t)
  {
    if t == "" {
      assert s + t == s;
    } else {
      var front := t[..|t| - 1];
      NumberAppend(s, front);
      assert (s + t)[..|s + t| - 1] == s + front;
      MulAssoc(Number(s), Pow10(|front|), 10);
    }
  }

  lemma {:induction false} NumberZeros(k: nat)
    ensures Number(Zeros(k)) == 0
  {
    if k > 0 {
      assert Zeros(k)[..k - 1] == Zeros(k - 1);
      NumberZeros(k - 1);
    }
  }

  lemma {:induction false} Pow10Add(a: nat, b: nat)
    ensures Pow10(a + b) == Pow10(a) * Pow10(b)
  {
    if a > 0 {
      Pow10Add(a - 1, b);
    }
  }

  lemma {:induction false} DigitCount(n: nat, k: nat)
    requires Pow10(k) <= n < Pow10(k + 1)
    ensures |DigitsOf(n)| == k + 1
  {
    if k > 0 {
      assert Pow10(k - 1) <= n / 10 < Pow10(k);
      DigitCount(n / 10, k - 1);
    }
  }

  // ---- products

  lemma MulAssoc(a: int, b: int, c: int)
    ensures a * (b * c) == (a * b) * c
  {
  }

  lemma MulStrict(a: int, b: int, u: nat)
    requires a < b && u > 0
    ensures a * u < b * u
  {
  }

  lemma SameFactor(a: int, b: int, u: nat)
    requires u > 0
    ensures a * u == b * u <==> a == b
  {
    if a < b {
      MulStrict(a, b, u);
    } else if b < a {
      MulStrict(b, a, u);
    }
  }

  lemma Shift(c: int, t: nat, m: nat)
    ensures c * Pow10(t + m) == (c * Pow10(t)) * Pow10(m)
  {
    Pow10Add(t, m);
    MulAssoc(c, Pow10(t), Pow10(m));
  }

  lemma AtLeast(a: int, b: int, u: nat)
    requires a <= b
    ensures (a - 1) * u + u == a * u <= b * u
  {
    assert (b - a) * u >= 0;
  }

  lemma MultipleHasNoRest(m: nat, u: nat)
    requires u > 0
    ensures (m * u) % u == 0
  {
    QuotientOf(m * u, u);
    var q := (m * u) / u;
    if m > q {
      MulStrict(q, m, u);
      AtLeast(q + 1, m, u);
    } else if m < q {
      MulStrict(m, q, u);
    }
  }

  lemma QuotientOf(n: nat, u: nat)
    requires u > 0
    ensures n == (n / u) * u + n % u && n % u < u
  {
  }

  // ---- numeric meaning

  lemma Rescale(d: Decimal, q: nat, p: nat)
    requires d.exponent + q >= 0 && q <= p
    ensures Scaled(d, p) == Scaled(d, q) * Pow10(p - q)
  {
    Shift(d.coefficient, d.exponent + q, p - q);
  }

  /** Whether two decimals are the same number can be decided at any common scale. */
  lemma SameAtScale(a: Decimal, b: Decimal, p: nat)
    requires a.exponent + p >= 0 && b.exponent + p >= 0
    ensures SameNumber(a, b) <==> Scaled(a, p) == Scaled(b, p)
  {
    var q := Places(a, b);
    Rescale(a, q, p);
    Rescale(b, q, p);
    SameFactor(Scaled(a, q), Scaled(b, q), Pow10(p - q));
  }

  lemma SameNumberVia(a: Decimal, b: Decimal, c: Decimal)
    requires SameNumber(a, b)
    ensures SameNumber(a, c) <==> SameNumber(b, c)
  {
    var p := Places(a, b) + Places(b, c);
    SameAtScale(a, b, p);
    SameAtScale(b, c, p);
    SameAtScale(a, c, p);
  }

  /** Moving `t` places from the exponent into the coefficient. */
  lemma SameShifted(a: Decimal, b: Decimal, t: nat)
    requires a.negative == b.negative && a.exponent == b.exponent + t
    ensures SameNumber(a, b) <==> a.coefficient * Pow10(t) == b.coefficient
  {
    var p := Places(a, b);
    var m := b.exponent + p;
    Shift(a.coefficient, t, m);
    SameFactor(a.coefficient * Pow10(t), b.coefficient, Pow10(m));
  }

  // ---- rounding and zero stripping

  /** Stripping removes exactly the trailing zeros; `t` counts them. */
  lemma {:induction false} ReduceStrips(d: Decimal) returns (t: nat)
    ensures Reduce(d).negative == d.negative
    ensures d.coefficient == 0 ==> Reduce(d).coefficient == 0
    ensures d.coefficient > 0 ==>
              && Reduce(d).coefficient % 10 != 0
              && Reduce(d).exponent == d.exponent + t
              && d.coefficient == Reduce(d).coefficient * Pow10(t)
              && |DigitsOf(d.coefficient)| == SignificantDigits(d) + t
    decreases d.coefficient
  {
    t := 0;
    if d.coefficient > 0 && d.coefficient % 10 == 0 {
      var smaller := Decimal(d.negative, d.coefficient / 10, d.exponent + 1);
      t := ReduceStrips(smaller);
      Shift(Reduce(d).coefficient, t, 1);
      assert Pow10(1) == 10;
      t := t + 1;
    }
  }

  lemma ReduceSameNumber(d: Decimal)
    ensures SameNumber(Reduce(d), d)
  {
    var t := ReduceStrips(d);
    if d.coefficient > 0 {
      SameShifted(Reduce(d), d, t);
    }
  }

  /** Rounding loses nothing exactly when the digits cut off are all zero. */
  lemma RoundSameNumber(d: Decimal)
    requires ExcessDigits(d) > 0
    ensures SameNumber(Round(d), d) <==> d.coefficient % Pow10(ExcessDigits(d)) == 0
  {
    var k := ExcessDigits(d);
    HalfEvenExact(d.coefficient, Pow10(k));
    SameShifted(Round(d), d, k);
  }

  /** What is rounded goes to the nearest number of 28 digits, and from the middle to the even one. */
  lemma RoundIsNearest(d: Decimal)
    requires ExcessDigits(d) > 0
    ensures var unit, r := Pow10(ExcessDigits(d)), Round(d);
            && r.negative == d.negative && r.exponent == d.exponent + ExcessDigits(d)
            && -(unit as int) <= 2 * (r.coefficient * unit - d.coefficient) <= unit
            && (2 * (r.coefficient * unit - d.coefficient) in {unit as int, -(unit as int)} ==> r.coefficient % 2 == 0)
  {
    HalfEvenNearest(d.coefficient, Pow10(ExcessDigits(d)));
    hide HalfEven;
    hide Pow10;
  }

  lemma HalfEvenNearest(n: nat, unit: nat)
    requires unit > 0
    ensures -(unit as int) <= 2 * (HalfEven(n, unit) * unit - n) <= unit
    ensures 2 * (HalfEven(n, unit) * unit - n) in {unit as int, -(unit as int)} ==> HalfEven(n, unit) % 2 == 0
  {
    QuotientOf(n, unit);
    var kept := n / unit;
    assert (kept + 1) * unit == kept * unit + unit;
  }

  lemma HalfEvenExact(n: nat, unit: nat)
    requires unit > 0
    ensures HalfEven(n, unit) * unit == n <==> n % unit == 0
  {
    QuotientOf(n, unit);
    var kept := n / unit;
    assert (kept + 1) * unit == kept * unit + unit;
  }

  lemma CutDigitsZero(c: nat, stripped: nat, t: nat, k: nat)
    requires c == stripped * Pow10(t) && stripped % 10 != 0
    ensures c % Pow10(k) == 0 <==> k <= t
  {
    if k <= t {
      Shift(stripped, t - k, k);
      MultipleHasNoRest(stripped * Pow10(t - k), Pow10(k));
    } else {
      CutDigitsLost(c, stripped, t, k);
    }
  }

  lemma CutDigitsLost(c: nat, stripped: nat, t: nat, k: nat)
    requires c == stripped * Pow10(t) && stripped % 10 != 0 && t < k
    ensures c % Pow10(k) != 0
  {
    hide Pow10;
    var u := Pow10(k);
    QuotientOf(c, u);
    MultipleNotCut(c / u, stripped, t, k);
  }

  lemma MultipleNotCut(m: nat, stripped: nat, t: nat, k: nat)
    requires stripped % 10 != 0 && t < k
    ensures m * Pow10(k) != stripped * Pow10(t)
  {
    hide Pow10;
    Shift(m, k - t, t);
    TensDivide(m, k - t);
    SameFactor(stripped, m * Pow10(k - t), Pow10(t));
  }

  lemma TensDivide(m: nat, j: nat)
    requires j > 0
    ensures (m * Pow10(j)) % 10 == 0
  {
    Shift(m, j - 1, 1);
    assert Pow10(1) == 10;
  }

  /** The printer keeps a number exactly when it needs no more digits than the context precision. */
  lemma PrintKeepsNumber(d: Decimal)
    ensures SameNumber(Reduce(Round(d)), d) <==> SignificantDigits(d) <= PRECISION
  {
    var t := ReduceStrips(d);
    ReduceSameNumber(Round(d));
    SameNumberVia(Reduce(Round(d)), Round(d), d);
    var k := ExcessDigits(d);
    if k > 0 {
      RoundSameNumber(d);
      CutDigitsZero(d.coefficient, Reduce(d).coefficient, t, k);
    }
  }

  // ---- reading the printed form

  /** The printed form: an optional minus sign, digits, and perhaps a point and digits. */
  predicate Printed(s: string, negative: bool, whole: string, fraction: string) {
    && Numeral(whole) && AllDigits(fraction)
    && s == (if negative then "-" else "") + whole + (if fraction == "" then "" else "." + fraction)
  }

  lemma FormatPrints(d: Decimal)
    ensures Printed(Format(d), d.negative, Whole(d), Fraction(d))
    ensures Number(Whole(d) + Fraction(d)) ==
            d.coefficient * Pow10(if d.exponent > 0 then d.exponent else 0)
    ensures |Fraction(d)| == if d.exponent < 0 then -d.exponent else 0
  {
    var ds := DigitsOf(d.coefficient);
    if d.exponent >= 0 {
      NumberAppend(ds, Zeros(d.exponent));
      NumberZeros(d.exponent);
      assert Whole(d) + Fraction(d) == ds + Zeros(d.exponent);
    } else if |ds| > -d.exponent {
      assert Whole(d) + Fraction(d) == ds;
    } else {
      var pad := Zeros(-d.exponent - |ds|);
      assert Whole(d) + Fraction(d) == Zeros(1 + |pad|) + ds;
      NumberZeros(1 + |pad|);
      NumberAppend(Zeros(1 + |pad|), ds);
    }
  }

  predicate PrintChar(c: char) { IsDigit(c) || c == '.' }

  lemma PrintedChars(s: string, negative: bool, whole: string, fraction: string)
    requires Printed(s, negative, whole, fraction)
    ensures s != "" && IsDigit(s[|s| - 1]) && (negative <==> s[0] == '-')
    ensures forall i | 0 <= i < |s| :: PrintChar(s[i]) || (i == 0 && s[i] == '-')
    ensures !Signed(s) || negative
    ensures Unsigned(s) == whole + (if fraction == "" then "" else "." + fraction)
  {
    var body := whole + (if fraction == "" then "" else "." + fraction);
    assert forall i | 0 <= i < |body| :: PrintChar(body[i]);
    assert s == (if negative then "-" else "") + body;
    assert s[|s| - 1] == body[|body| - 1];
  }

  lemma NothingToDrop(s: string)
    requires forall i | 0 <= i < |s| :: !IsSpace(s[i])
    ensures DropLeft(s, IsSpace) == s
  {
  }

  lemma {:induction false} NoSpacesToRemove(s: string)
    requires forall i | 0 <= i < |s| :: !IsSpace(s[i])
    ensures RemoveSpaces(s) == s
  {
    if s != "" {
      NoSpacesToRemove(s[1..]);
      assert s == [s[0]] + s[1..];
    }
  }

  lemma NoRange(s: string)
    requires forall i | 0 <= i < |s| :: PrintChar(s[i]) || (i == 0 && s[i] == '-')
    ensures !HasRange(s)
  {
    forall i | 0 <= i < |s| && IsDigit(s[i]) ensures !RangeTail(s[i + 1..]) {
      var t := s[i + 1..];
      NothingToDrop(t);
      if t != "" {
        assert PrintChar(t[0]);
        assert |t| >= 3 ==> CaseFold(t[..3])[0] == t[0];
      }
    }
  }

  lemma {:induction false} NoUnit(s: string, n: nat)
    requires n > 0
    requires forall i | 0 < i < |s| :: PrintChar(s[i])
    ensures UnitStart(s, n) == None
    decreases |s| - n
  {
    if n < |s| {
      NothingToDrop(s[n..]);
      assert PrintChar(s[n..][0]);
      NoUnit(s, n + 1);
    }
  }

  lemma {:induction false} PointFound(whole: string, fraction: string)
    requires AllDigits(whole)
    ensures IndexOf(whole + "." + fraction, '.') == |whole|
  {
    if whole != "" {
      PointFound(whole[1..], fraction);
      assert (whole + "." + fraction)[1..] == whole[1..] + "." + fraction;
    }
  }

  lemma {:induction false} PointMissing(whole: string)
    requires AllDigits(whole)
    ensures IndexOf(whole, '.') == |whole|
  {
    if whole != "" {
      PointMissing(whole[1..]);
    }
  }

  lemma FractionReads(s: string, negative: bool, whole: string, fraction: string)
    requires Unsigned(s) == whole + "." + fraction && Numeral(whole) && Numeral(fraction)
    ensures ReadFraction(s, '.', negative, "") ==
            if |fraction| == 3 && |whole| <= 3 then Ambiguous(ThreeDigitSeparator, "")
            else Valid(ParseDecimal(whole, fraction, negative), "")
    ensures !PlainInteger(s)
  {
    var body := Unsigned(s);
    PointFound(whole, fraction);
    assert body[|whole|] == '.';
    assert body[..|whole|] == whole && body[|whole| + 1..] == fraction;
  }

  lemma PrintedNumberReads(s: string, negative: bool, whole: string, fraction: string)
    requires Printed(s, negative, whole, fraction)
    ensures ReadNumber(s, "") ==
            if |fraction| == 3 && |whole| <= 3 then Ambiguous(ThreeDigitSeparator, "")
            else Valid(ParseDecimal(whole, fraction, negative), "")
    ensures ThreeAfterPoint(s) <==> |fraction| == 3 && |whole| <= 3
  {
    PrintedChars(s, negative, whole, fraction);
    assert ',' !in s;
    if fraction == "" {
      assert Unsigned(s) == whole;
      PointMissing(whole);
    } else {
      assert Unsigned(s) == whole + "." + fraction;
      FractionReads(s, negative, whole, fraction);
      PointFound(whole, fraction);
    }
  }

  lemma PrintedIsPlain(s: string, negative: bool, whole: string, fraction: string)
    requires Printed(s, negative, whole, fraction)
    ensures IsAscii(s) && Trimmed(s) && s != ""
    ensures !HasUnitSign(s) && !HasRange(s) && UnitStart(s, 1) == None
    ensures RemoveSpaces(s) == s
  {
    PrintedChars(s, negative, whole, fraction);
    NoRange(s);
    NoUnit(s, 1);
    PlainChars(s);
    NoSpacesToRemove(s);
  }

  lemma PlainChars(s: string)
    requires forall i | 0 <= i < |s| :: PrintChar(s[i]) || s[i] == '-'
    ensures forall i | 0 <= i < |s| :: !IsSpace(s[i]) && s[i] < '\U{80}'
    ensures !HasUnitSign(s)
  {
  }

  /** The printed form as read by the whole normaliser: no range, no unit, nothing to trim. */
  lemma PrintedReads(nfkc: string -> string, s: string, negative: bool, whole: string, fraction: string)
    requires KeepsAscii(nfkc) && Printed(s, negative, whole, fraction)
    ensures NormalizeDecimal(nfkc, s) == ReadNumber(s, "")
  {
    PrintedIsPlain(s, negative, whole, fraction);
    TrimmedIsStripped(s);
    assert Strip(nfkc(s)) == s;
  }

  /** The printed text has three digits after the point and at most three before it. */
  predicate ThreeAfterPoint(s: string) {
    var body := Unsigned(s);
    var at := IndexOf(body, '.');
    |body| - at - 1 == 3 && at <= 3
  }

  /** A plain decimal is read as the same number, unless the three-digit rule refuses it. */
  lemma FormatReads(nfkc: string -> string, d: Decimal)
    requires KeepsAscii(nfkc)
    ensures var again := NormalizeDecimal(nfkc, Format(d));
            if ThreeAfterPoint(Format(d)) then again == Ambiguous(ThreeDigitSeparator, "")
            else again.Valid? && again.unit == "" && SameNumber(again.value, d)
  {
    var whole, fraction := Whole(d), Fraction(d);
    FormatPrints(d);
    PrintedReads(nfkc, Format(d), d.negative, whole, fraction);
    PrintedNumberReads(Format(d), d.negative, whole, fraction);
    var v := ParseDecimal(whole, fraction, d.negative);
    SameShifted(d, v, if d.exponent > 0 then d.exponent else 0);
    SameNumberSymmetric(d, v);
  }

  lemma SameNumberSymmetric(a: Decimal, b: Decimal)
    ensures SameNumber(a, b) <==> SameNumber(b, a)
  {
  }

  /**
   * Reading a printed decimal back. It is refused as ambiguous exactly when the printed text has
   * three fraction digits and at most three whole digits; otherwise it is read without a unit, and
   * as the same number exactly when the number needs at most 28 significant digits.
   */
  lemma PrintReadsBack(nfkc: string -> string, d: Decimal)
    requires KeepsAscii(nfkc)
    ensures var again := NormalizeDecimal(nfkc, Print(d));
            if ThreeAfterPoint(Print(d)) then again == Ambiguous(ThreeDigitSeparator, "")
            else
              && again.Valid? && again.unit == ""
              && (SameNumber(again.value, d) <==> SignificantDigits(d) <= PRECISION)
  {
    var r := Reduce(Round(d));
    FormatReads(nfkc, r);
    PrintKeepsNumber(d);
    var again := NormalizeDecimal(nfkc, Print(d));
    if again.Valid? {
      SameNumberVia(again.value, r, d);
    }
  }

  /** For every text the normaliser accepts, with whatever unit: its stored form reads back so. */
  lemma AcceptedValueReadsBack(nfkc: string -> string, raw: string)
    requires KeepsAscii(nfkc) && NormalizeDecimal(nfkc, raw).Valid?
    ensures var d := NormalizeDecimal(nfkc, raw).value;
            var again := NormalizeDecimal(nfkc, Print(d));
            && (again.Ambiguous? <==> ThreeAfterPoint(Print(d)))
            && (again.Valid? && SameNumber(again.value, d)
                <==> !ThreeAfterPoint(Print(d)) && SignificantDigits(d) <= PRECISION)
  {
    PrintReadsBack(nfkc, NormalizeDecimal(nfkc, raw).value);
  }

  lemma LongIntegerChanges(nfkc: string -> string, d: Decimal)
    requires KeepsAscii(nfkc) && d.exponent >= 0 && SignificantDigits(d) > PRECISION
    ensures var again := NormalizeDecimal(nfkc, Print(d));
            again.Valid? && !SameNumber(again.value, d)
  {
    hide *;
    PrintReadsBack(nfkc, d);
    IntegerIsPrintedWhole(d);
  }

  /** Numbers the printer changes: a one, 27 or more zeros, and a one. */
  lemma LongNumberChanges(nfkc: string -> string, k: nat)
    requires KeepsAscii(nfkc) && k >= PRECISION
    ensures var d := Decimal(false, Pow10(k) + 1, 0);
            var again := NormalizeDecimal(nfkc, Print(d));
            again.Valid? && !SameNumber(again.value, d)
  {
    assert k > 0;
    hide *;
    LongNumber(k);
    LongIntegerChanges(nfkc, Decimal(false, Pow10(k) + 1, 0));
  }

  /** Written out as a text, such a number is accepted, and what is stored of it reads back as another one. */
  lemma LongTextChanges(nfkc: string -> string, k: nat)
    requires KeepsAscii(nfkc) && k >= PRECISION
    ensures var raw := DigitsOf(Pow10(k) + 1);
            var reading := NormalizeDecimal(nfkc, raw);
            && reading == Valid(Decimal(false, Pow10(k) + 1, 0), "")
            && NormalizeDecimal(nfkc, Print(reading.value)).Valid?
            && !SameNumber(NormalizeDecimal(nfkc, Print(reading.value)).value, reading.value)
  {
    var raw := DigitsOf(Pow10(k) + 1);
    DigitsAreRead(nfkc, raw);
    hide *;
    LongNumberChanges(nfkc, k);
  }

  lemma DigitsAreRead(nfkc: string -> string, raw: string)
    requires KeepsAscii(nfkc) && Numeral(raw)
    ensures NormalizeDecimal(nfkc, raw) == Valid(Decimal(false, Number(raw), 0), "")
  {
    PrintedReads(nfkc, raw, false, raw, "");
    PrintedNumberReads(raw, false, raw, "");
    assert raw + "" == raw;
    hide NormalizeDecimal;
    hide ReadNumber;
  }

  lemma IntegerIsPrintedWhole(d: Decimal)
    requires d.exponent >= 0
    ensures !ThreeAfterPoint(Print(d))
  {
    var t := ReduceStrips(Round(d));
    var r := Reduce(Round(d));
    FormatPrints(r);
    PrintedNumberReads(Print(d), r.negative, Whole(r), Fraction(r));
  }

  lemma LongNumber(k: nat)
    requires k > 0
    ensures SignificantDigits(Decimal(false, Pow10(k) + 1, 0)) == k + 1
  {
    TensDivide(1, k);
    DigitCount(Pow10(k) + 1, k);
  }
}
