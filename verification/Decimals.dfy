/**
 * The German decimal normaliser and the plain printer behind edited metric values: a value is read
 * with `normalize_decimal`, stored as `format(value.normalize(), "f")` and read again later.
 */
module Decimals {
  import opened Options
  import opened Texts

  /** `(-1)^negative * coefficient * 10^exponent` */
  datatype Decimal = Decimal(negative: bool, coefficient: nat, exponent: int)

  datatype Trouble =
    | EmptyValue | NumericRange | UnknownUnit | MixedSeparators | ThreeDigitSeparator | InvalidDecimal

  datatype Reading =
    | Valid(value: Decimal, unit: string)
    | Ambiguous(why: Trouble, unit: string)
    | Invalid(why: Trouble, unit: string)

  /** The precision of the default decimal context, under which `normalize()` rounds. */
  const PRECISION := 28

  // ---- characters and numerals

  predicate IsDigit(c: char) { '0' <= c <= '9' }

  predicate IsDash(c: char) { c == '-' || c == '\U{2013}' || c == '\U{2014}' }

  predicate IsLetter(c: char) {
    'A' <= c <= 'Z' || 'a' <= c <= 'z'
    || c == '\U{C4}' || c == '\U{D6}' || c == '\U{DC}'
    || c == '\U{E4}' || c == '\U{F6}' || c == '\U{FC}' || c == '\U{DF}'
  }

  predicate AllDigits(s: string) { forall i | 0 <= i < |s| :: IsDigit(s[i]) }

  predicate Numeral(s: string) { s != "" && AllDigits(s) }

  function DigitChar(d: nat): (c: char)
    requires d < 10
    ensures IsDigit(c) && DigitValue(c) == d
  {
    '0' + d as char
  }

  function DigitValue(c: char): nat
    requires IsDigit(c)
  {
    c as int - '0' as int
  }

  function Number(s: string): nat
    requires AllDigits(s)
  {
    if s == "" then 0 else Number(s[..|s| - 1]) * 10 + DigitValue(s[|s| - 1])
  }

  function DigitsOf(n: nat): (s: string)
    ensures Numeral(s) && Number(s) == n
  {
    if n < 10 then [DigitChar(n)] else DigitsOf(n / 10) + [DigitChar(n % 10)]
  }

  function Zeros(k: nat): (s: string)
    ensures |s| == k && AllDigits(s)
  {
    seq(k, _ => '0')
  }

  function Pow10(k: nat): (p: nat)
    ensures p > 0
  {
    if k == 0 then 1 else 10 * Pow10(k - 1)
  }

  // ---- reading

  function FoldChar(c: char): string {
    if 'A' <= c <= 'Z' then ['a' + (c - 'A')]
    else if c == '\U{C4}' then ['\U{E4}']
    else if c == '\U{D6}' then ['\U{F6}']
    else if c == '\U{DC}' then ['\U{FC}']
    else if c == '\U{DF}' then "ss"
    else [c]
  }

  function CaseFold(s: string): string {
    if s == "" then "" else FoldChar(s[0]) + CaseFold(s[1..])
  }

  function UnitAlias(folded: string): Option<string> {
    if folded in {"%", "prozent"} then Some("%")
    else if folded in {"min", "minute", "minuten"} then Some("min")
    else if folded in {"h", "std", "stunde", "stunden"} then Some("h")
    else if folded in {"\U{20AC}", "eur", "euro"} then Some("EUR")
    else if folded in {"anzahl", "fall", "f\U{E4}lle", "faelle", "st\U{FC}ck", "stueck"} then Some("count")
    else None
  }

  /** After a digit: blanks, a dash or `bis`, blanks and a digit. */
  predicate RangeTail(s: string) {
    var t := DropLeft(s, IsSpace);
    || (|t| >= 1 && IsDash(t[0]) && StartsWithDigit(DropLeft(t[1..], IsSpace)))
    || (|t| >= 3 && CaseFold(t[..3]) == "bis" && StartsWithDigit(DropLeft(t[3..], IsSpace)))
  }

  predicate StartsWithDigit(s: string) { s != "" && IsDigit(s[0]) }

  predicate HasRange(s: string) {
    exists i | 0 <= i < |s| :: IsDigit(s[i]) && RangeTail(s[i + 1..])
  }

  predicate UnitTail(s: string) {
    var u := DropLeft(s, IsSpace);
    u == "%" || u == "\U{20AC}" || (u != "" && forall i | 0 <= i < |u| :: IsLetter(u[i]))
  }

  /** Where the shortest number part before a unit ends: the lazy match of the unit pattern. */
  function UnitStart(s: string, n: nat): (r: Option<nat>)
    requires 0 < n
    ensures r.Some? ==> n <= r.value < |s| && UnitTail(s[r.value..])
    decreases |s| - n
  {
    if n >= |s| || s[n - 1] == '\n' then None
    else if UnitTail(s[n..]) then Some(n)
    else UnitStart(s, n + 1)
  }

  predicate HasUnitSign(s: string) {
    exists i | 0 <= i < |s| :: IsLetter(s[i]) || s[i] == '\U{20AC}' || s[i] == '%'
  }

  function RemoveSpaces(s: string): string {
    if s == "" then ""
    else (if IsSpace(s[0]) then "" else [s[0]]) + RemoveSpaces(s[1..])
  }

  predicate Signed(s: string) { s != "" && (s[0] == '+' || s[0] == '-') }

  function Unsigned(s: string): string { if Signed(s) then s[1..] else s }

  function IndexOf(s: string, c: char): (i: nat)
    ensures i <= |s| && c !in s[..i]
    ensures i < |s| ==> s[i] == c
  {
    if s == "" || s[0] == c then 0
    else
      var i := IndexOf(s[1..], c) + 1;
      assert s[..i] == [s[0]] + s[1..][..i - 1];
      i
  }

  predicate GroupTail(s: string) {
    s == "" || (|s| >= 4 && s[0] == '.' && AllDigits(s[1..4]) && GroupTail(s[4..]))
  }

  /** One to three digits, then one or more groups of a point and three digits. */
  predicate Grouped(s: string) {
    exists k | 1 <= k <= 3 :: k < |s| && AllDigits(s[..k]) && GroupTail(s[k..])
  }

  predicate GermanGrouped(compact: string) {
    var body := Unsigned(compact);
    var comma := IndexOf(body, ',');
    comma < |body| && Grouped(body[..comma]) && Numeral(body[comma + 1..])
  }

  predicate PlainInteger(compact: string) { Numeral(Unsigned(compact)) }

  predicate PlainFraction(compact: string, separator: char) {
    var body := Unsigned(compact);
    var at := IndexOf(body, separator);
    at < |body| && Numeral(body[..at]) && Numeral(body[at + 1..])
  }

  function Remove(s: string, c: char): string {
    if s == "" then "" else (if s[0] == c then "" else [s[0]]) + Remove(s[1..], c)
  }

  /** `Decimal(canonical)` for an optionally signed numeral with an optional fraction. */
  function ParseDecimal(whole: string, fraction: string, negative: bool): Decimal
    requires AllDigits(whole) && AllDigits(fraction)
  {
    Decimal(negative, Number(whole + fraction), -|fraction|)
  }

  lemma {:induction false} GroupTailDigits(s: string)
    requires GroupTail(s)
    ensures AllDigits(Remove(s, '.'))
  {
    if s != "" {
      GroupTailDigits(s[4..]);
      assert s[1..] == s[1..4] + s[4..];
      RemoveFromDigits(s[1..4], s[4..]);
      assert Remove(s, '.') == s[1..4] + Remove(s[4..], '.');
    }
  }

  lemma {:induction false} RemoveFromDigits(digits: string, rest: string)
    requires AllDigits(digits)
    ensures Remove(digits + rest, '.') == digits + Remove(rest, '.')
  {
    if digits == "" {
      assert digits + rest == rest;
    } else {
      assert (digits + rest)[1..] == digits[1..] + rest;
      RemoveFromDigits(digits[1..], rest);
    }
  }

  lemma GroupedDigits(s: string)
    requires Grouped(s)
    ensures AllDigits(Remove(s, '.'))
  {
    var k :| 1 <= k <= 3 && k < |s| && AllDigits(s[..k]) && GroupTail(s[k..]);
    GroupTailDigits(s[k..]);
    assert s == s[..k] + s[k..];
    RemoveFromDigits(s[..k], s[k..]);
  }

  function ReadGrouped(body: string, negative: bool): Decimal
    requires var comma := IndexOf(body, ',');
             comma < |body| && Grouped(body[..comma]) && Numeral(body[comma + 1..])
  {
    var comma := IndexOf(body, ',');
    GroupedDigits(body[..comma]);
    ParseDecimal(Remove(body[..comma], '.'), body[comma + 1..], negative)
  }

  function ReadFraction(compact: string, separator: char, negative: bool, unit: string): Reading {
    var body := Unsigned(compact);
    var at := IndexOf(body, separator);
    if !PlainFraction(compact, separator) then Invalid(InvalidDecimal, unit)
    else if |body| - at - 1 == 3 && at <= 3 then Ambiguous(ThreeDigitSeparator, unit)
    else Valid(ParseDecimal(body[..at], body[at + 1..], negative), unit)
  }

  function ReadNumber(compact: string, unit: string): Reading {
    var negative := compact != "" && compact[0] == '-';
    if ',' in compact && '.' in compact then
      if GermanGrouped(compact) then Valid(ReadGrouped(Unsigned(compact), negative), unit)
      else Ambiguous(MixedSeparators, unit)
    else if PlainInteger(compact) then
      Valid(ParseDecimal(Unsigned(compact), "", negative), unit)
    else
      ReadFraction(compact, if ',' in compact then ',' else '.', negative, unit)
  }

  function ReadMeasure(number: string, unitText: string): Reading {
    match UnitAlias(CaseFold(unitText))
    case None => Invalid(UnknownUnit, "")
    case Some(unit) => ReadNumber(RemoveSpaces(Strip(number)), unit)
  }

  /** `normalize_decimal` on the text of the value; NFKC normalization is a parameter. */
  function NormalizeDecimal(nfkc: string -> string, raw: string): Reading {
    var text := Strip(nfkc(raw));
    if text == "" then Invalid(EmptyValue, "")
    else if HasRange(text) then Ambiguous(NumericRange, "")
    else
      match UnitStart(text, 1)
      case Some(n) => ReadMeasure(text[..n], DropLeft(text[n..], IsSpace))
      case None =>
        if HasUnitSign(text) then Invalid(UnknownUnit, "") else ReadNumber(RemoveSpaces(text), "")
  }

  // ---- printing

  /** The quotient by `unit`, rounded half to even. */
  function HalfEven(n: nat, unit: nat): (q: nat)
    requires unit > 0
  {
    var kept, lost := n / unit, n % unit;
    if 2 * lost > unit || (2 * lost == unit && kept % 2 == 1) then kept + 1 else kept
  }

  function ExcessDigits(d: Decimal): (k: nat)
    ensures k == 0 || k + PRECISION == |DigitsOf(d.coefficient)|
  {
    var n := |DigitsOf(d.coefficient)|;
    if n > PRECISION then n - PRECISION else 0
  }

  /** Rounding to the context precision. */
  function Round(d: Decimal): Decimal {
    var k := ExcessDigits(d);
    if k == 0 then d else Decimal(d.negative, HalfEven(d.coefficient, Pow10(k)), d.exponent + k)
  }

  /** Strip the trailing zeros of the coefficient. */
  function Reduce(d: Decimal): (r: Decimal)
    decreases d.coefficient
  {
    if d.coefficient == 0 then Decimal(d.negative, 0, 0)
    else if d.coefficient % 10 == 0 then Reduce(Decimal(d.negative, d.coefficient / 10, d.exponent + 1))
    else d
  }

  /** The digits before and after the point. */
  function Whole(d: Decimal): string {
    var ds := DigitsOf(d.coefficient);
    if d.exponent >= 0 then ds + Zeros(d.exponent)
    else if |ds| > -d.exponent then ds[..|ds| + d.exponent]
    else "0"
  }

  function Fraction(d: Decimal): string {
    var ds := DigitsOf(d.coefficient);
    if d.exponent >= 0 then ""
    else if |ds| > -d.exponent then ds[|ds| + d.exponent..]
    else Zeros(-d.exponent - |ds|) + ds
  }

  /** `format(d, "f")` */
  function Format(d: Decimal): string {
    (if d.negative then "-" else "") + Whole(d)
    + (if Fraction(d) == "" then "" else "." + Fraction(d))
  }

  /** `format(d.normalize(), "f")`, the form in which `_json_value` stores a decimal. */
  function Print(d: Decimal): string {
    Format(Reduce(Round(d)))
  }

  // ---- numeric meaning

  /** The number times `10^p`, an integer. */
  function Scaled(d: Decimal, p: nat): int
    requires d.exponent + p >= 0
  {
    var m := d.coefficient * Pow10(d.exponent + p);
    if d.negative then -m else m
  }

  predicate SameNumber(a: Decimal, b: Decimal) {
    var p := Places(a, b);
    Scaled(a, p) == Scaled(b, p)
  }

  /** Enough decimal places for both numbers. */
  function Places(a: Decimal, b: Decimal): (p: nat)
    ensures a.exponent + p >= 0 && b.exponent + p >= 0
  {
    var m := if a.exponent < b.exponent then a.exponent else b.exponent;
    if m < 0 then -m else 0
  }

  /** How many digits the number needs once trailing zeros are gone. */
  function SignificantDigits(d: Decimal): nat {
    |DigitsOf(Reduce(d).coefficient)|
  }
}
