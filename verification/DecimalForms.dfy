/** How numbers are read as people write them: with a sign, a comma or a point, groups of three, and a unit. */
module DecimalForms {
  import opened Options
  import opened Texts
  import opened Decimals
  import opened DecimalProofs

  // ---- what is written

  predicate IsSign(s: string) { s == "" || s == "+" || s == "-" }

  predicate Blank(s: string) { forall i | 0 <= i < |s| :: IsSpace(s[i]) }

  /** The number is followed by nothing, or by a recognised spelling of `unit`, perhaps after blanks. */
  predicate Suffix(s: string, unit: string) {
    if s == "" then unit == ""
    else exists k | 0 <= k < |s| :: Blank(s[..k]) && UnitAlias(CaseFold(s[k..])) == Some(unit)
  }

  predicate NumberChar(c: char) { IsDigit(c) || c == '.' || c == ',' }

  /** A sign and then digits, points and commas, ending in a digit. */
  predicate NumberText(s: string) {
    && s != "" && IsDigit(s[|s| - 1])
    && forall i | 0 <= i < |s| :: NumberChar(s[i]) || (i == 0 && (s[i] == '+' || s[i] == '-'))
  }

  // ---- units

  lemma FoldedChar(c: char)
    ensures FoldChar(c) != "" && (IsLetter(c) <==> IsLetter(FoldChar(c)[0])) && (!IsLetter(c) ==> FoldChar(c) == [c])
  {
  }

  lemma {:induction false} FoldedLetters(u: string)
    requires forall i | 0 <= i < |CaseFold(u)| :: IsLetter(CaseFold(u)[i])
    ensures forall i | 0 <= i < |u| :: IsLetter(u[i])
  {
    if u != "" {
      FoldedChar(u[0]);
      var head, tail := FoldChar(u[0]), CaseFold(u[1..]);
      hide FoldChar;
      hide IsLetter;
      var folded := CaseFold(u);
      assert folded == head + tail && folded[0] == head[0];
      forall i | 0 <= i < |tail| ensures IsLetter(tail[i]) {
        assert folded[|head| + i] == tail[i];
      }
      FoldedLetters(u[1..]);
    }
  }

  lemma {:induction false} FoldedLength(u: string)
    ensures |CaseFold(u)| >= |u|
  {
    if u != "" {
      FoldedChar(u[0]);
      hide FoldChar;
      FoldedLength(u[1..]);
    }
  }

  lemma FoldedSign(u: string, c: char)
    requires CaseFold(u) == [c] && !IsLetter(c)
    ensures u == [c]
  {
    FoldedLength(u);
    if u != "" {
      FoldedChar(u[0]);
    }
  }

  predicate UnitWord(u: string) {
    u == "%" || u == "\U{20AC}" || (u != "" && forall i | 0 <= i < |u| :: IsLetter(u[i]))
  }

  lemma AliasIsWord(u: string)
    requires UnitAlias(CaseFold(u)).Some?
    ensures UnitWord(u)
  {
    var folded := CaseFold(u);
    if folded == "%" {
      FoldedSign(u, '%');
    } else if folded == "\U{20AC}" {
      FoldedSign(u, '\U{20AC}');
    } else {
      assert forall i | 0 <= i < |folded| :: IsLetter(folded[i]);
      FoldedLetters(u);
    }
  }

  lemma {:induction false} BlanksDropped(gap: string, t: string)
    requires Blank(gap) && t != "" && !IsSpace(t[0])
    ensures DropLeft(gap + t, IsSpace) == t
  {
    if gap == "" {
      assert gap + t == t;
    } else {
      assert (gap + t)[1..] == gap[1..] + t;
      BlanksDropped(gap[1..], t);
    }
  }

  lemma WordStart(u: string)
    requires UnitWord(u)
    ensures u != "" && !IsSpace(u[0]) && !IsDigit(u[0])
    ensures forall i | 0 <= i < |u| :: !IsDigit(u[i]) && !IsSpace(u[i]) && !IsDash(u[i])
  {
  }

  lemma WordIsUnitTail(gap: string, u: string)
    requires Blank(gap) && UnitWord(u)
    ensures DropLeft(gap + u, IsSpace) == u && UnitTail(gap + u)
  {
    WordStart(u);
    BlanksDropped(gap, u);
  }

  lemma SuffixChars(gap: string, u: string)
    requires Blank(gap) && UnitWord(u)
    ensures forall i | 0 <= i < |gap + u| :: !IsDigit((gap + u)[i]) && !IsDash((gap + u)[i])
  {
    WordStart(u);
    hide UnitWord;
    assert forall c | IsSpace(c) :: !IsDigit(c) && !IsDash(c);
    hide IsSpace;
    hide IsDigit;
    hide IsDash;
  }

  /** After the number there is nothing, or blanks and a unit. */
  lemma SuffixIs(s: string, unit: string) returns (u: string)
    requires Suffix(s, unit) && s != ""
    ensures UnitWord(u) && UnitAlias(CaseFold(u)) == Some(unit)
    ensures DropLeft(s, IsSpace) == u && UnitTail(s)
    ensures forall i | 0 <= i < |s| :: !IsDigit(s[i]) && !IsDash(s[i])
  {
    hide UnitAlias;
    hide CaseFold;
    var k :| 0 <= k < |s| && Blank(s[..k]) && UnitAlias(CaseFold(s[k..])) == Some(unit);
    u := s[k..];
    AliasIsWord(u);
    assert s[..k] + u == s;
    hide *;
    WordIsUnitTail(s[..k], u);
    SuffixChars(s[..k], u);
  }

  // ---- number and unit are told apart

  lemma {:induction false} UnitFound(number: string, s: string, n: nat)
    requires NumberText(number) && 0 < n <= |number|
    requires s == "" || UnitTail(s)
    ensures UnitStart(number + s, n) == if s == "" then None else Some(|number|)
    decreases |number| - n
  {
    var text := number + s;
    if n == |number| {
      assert text[n..] == s;
    } else {
      assert NumberChar(text[n..][0]);
      NumberIsNoUnit(text[n..]);
      UnitFound(number, s, n + 1);
    }
    assert text[n - 1] == number[n - 1];
  }

  lemma NumberIsNoUnit(t: string)
    requires t != "" && NumberChar(t[0])
    ensures !UnitTail(t)
  {
  }

  lemma DropLeftStops(t: string)
    ensures var d := DropLeft(t, IsSpace); d == "" || (!IsSpace(d[0]) && exists k | 0 <= k < |t| :: d == t[k..])
  {
    if t != "" {
      if IsSpace(t[0]) {
        DropLeftStops(t[1..]);
        var d := DropLeft(t, IsSpace);
        if d != "" {
          var k :| 0 <= k < |t[1..]| && d == t[1..][k..];
          assert d == t[k + 1..];
        }
      } else {
        assert t == t[0..];
      }
    }
  }

  /** What follows a digit of the number is no range. */
  lemma NoRangeInNumber(number: string, s: string)
    requires NumberText(number) && forall i | 0 <= i < |s| :: !IsDigit(s[i]) && !IsDash(s[i])
    ensures !HasRange(number + s)
  {
    var text := number + s;
    forall i | 0 <= i < |text| && IsDigit(text[i]) ensures !RangeTail(text[i + 1..]) {
      if i + 1 < |number| {
        assert NumberChar(text[i + 1..][0]);
        NoRangeAtNumber(text[i + 1..]);
      } else {
        assert text[i + 1..] == s;
        NoRangeAfter(s);
      }
    }
  }

  lemma NoRangeAtNumber(t: string)
    requires t != "" && NumberChar(t[0])
    ensures !RangeTail(t)
  {
    assert DropLeft(t, IsSpace) == t;
    assert |t| >= 3 ==> CaseFold(t[..3])[0] == t[0];
  }

  lemma NoRangeAfter(s: string)
    requires forall i | 0 <= i < |s| :: !IsDigit(s[i]) && !IsDash(s[i])
    ensures !RangeTail(s)
  {
    DropLeftStops(s);
    var t := DropLeft(s, IsSpace);
    if t != "" {
      assert forall i | 0 <= i < |t| :: !IsDigit(t[i]) && !IsDash(t[i]);
      if |t| >= 3 {
        DropLeftStops(t[3..]);
      }
    }
    hide CaseFold;
  }

  lemma NumberHasNoBlanks(number: string)
    requires NumberText(number)
    ensures Strip(number) == number && RemoveSpaces(number) == number && !HasUnitSign(number)
  {
    assert forall i | 0 <= i < |number| :: !IsSpace(number[i]);
    NoSpacesToRemove(number);
    TrimmedIsStripped(number);
  }

  /** A number with or without a unit behind it is read as the number alone, in that unit. */
  lemma MeasureReads(nfkc: string -> string, raw: string, number: string, s: string, unit: string)
    requires NumberText(number) && Suffix(s, unit) && Strip(nfkc(raw)) == number + s
    ensures NormalizeDecimal(nfkc, raw) == ReadNumber(number, unit)
  {
    NumberHasNoBlanks(number);
    if s == "" {
      assert number + s == number;
      NoRangeInNumber(number, s);
      UnitFound(number, s, 1);
    } else {
      var u := SuffixIs(s, unit);
      NoRangeInNumber(number, s);
      UnitFound(number, s, 1);
      assert (number + s)[..|number|] == number && (number + s)[|number|..] == s;
    }
    hide HasRange;
    hide UnitStart;
    hide ReadNumber;
    hide HasUnitSign;
    hide RemoveSpaces;
    hide UnitAlias;
    hide CaseFold;
    hide Suffix;
    hide NumberText;
  }

  // ---- the three forms

  /** The number times `10^|f|` is the signed number with the digits of `w` and `f`. */
  predicate Means(d: Decimal, sign: string, w: string, f: string)
    requires AllDigits(w) && AllDigits(f)
  {
    var n: int := Number(w + f);
    d.exponent + |f| >= 0 && Scaled(d, |f|) == if sign == "-" then -n else n
  }

  function Tail(groups: seq<string>): string {
    if groups == [] then "" else "." + groups[0] + Tail(groups[1..])
  }

  function Concat(groups: seq<string>): string {
    if groups == [] then "" else groups[0] + Concat(groups[1..])
  }

  predicate Threes(groups: seq<string>) {
    groups != [] && forall i | 0 <= i < |groups| :: |groups[i]| == 3 && AllDigits(groups[i])
  }

  lemma ParsedMeans(sign: string, w: string, f: string)
    requires IsSign(sign) && AllDigits(w) && AllDigits(f)
    ensures Means(ParseDecimal(w, f, sign == "-"), sign, w, f)
  {
    hide Number;
    var d := ParseDecimal(w, f, sign == "-");
    assert d.coefficient * Pow10(0) == d.coefficient;
  }

  lemma SignOf(sign: string, body: string)
    requires IsSign(sign) && body != "" && IsDigit(body[0])
    ensures Unsigned(sign + body) == body && (sign + body != "" && ((sign + body)[0] == '-' <==> sign == "-"))
  {
    if sign == "" {
      assert sign + body == body;
    }
  }

  lemma {:induction false} SeparatorFound(w: string, sep: char, rest: string)
    requires AllDigits(w) && !IsDigit(sep)
    ensures IndexOf(w + [sep] + rest, sep) == |w|
  {
    if w != "" {
      SeparatorFound(w[1..], sep, rest);
      assert (w + [sep] + rest)[1..] == w[1..] + [sep] + rest;
    }
  }

  lemma {:induction false} NoSeparator(w: string, sep: char)
    requires sep !in w
    ensures IndexOf(w, sep) == |w|
  {
    if w != "" {
      NoSeparator(w[1..], sep);
    }
  }

  lemma IntegerCompact(sign: string, w: string, unit: string)
    requires IsSign(sign) && Numeral(w)
    ensures ReadNumber(sign + w, unit) == Valid(ParseDecimal(w, "", sign == "-"), unit) && NumberText(sign + w)
  {
    SignOf(sign, w);
    assert ',' !in sign + w && '.' !in sign + w;
  }

  lemma FractionBody(w: string, sep: char, f: string)
    requires Numeral(w) && Numeral(f) && (sep == ',' || sep == '.')
    ensures var body := w + [sep] + f;
            && IndexOf(body, sep) == |w| && body[..|w|] == w && body[|w| + 1..] == f
            && !Numeral(body) && IsDigit(body[0]) && IsDigit(body[|body| - 1]) && sep in body
            && (forall i | 0 <= i < |body| :: NumberChar(body[i]) && body[i] != if sep == ',' then '.' else ',')
  {
    SeparatorFound(w, sep, f);
    assert (w + [sep] + f)[|w|] == sep;
  }

  lemma {:induction false} SignedText(sign: string, body: string)
    requires IsSign(sign) && body != "" && IsDigit(body[0]) && IsDigit(body[|body| - 1])
    requires forall i | 0 <= i < |body| :: NumberChar(body[i])
    ensures NumberText(sign + body)
    ensures forall c | NumberChar(c) :: c in sign + body <==> c in body
  {
    var s := sign + body;
    assert s[|s| - 1] == body[|body| - 1];
    forall i | 0 <= i < |s| ensures NumberChar(s[i]) || (i == 0 && (s[i] == '+' || s[i] == '-')) {
      if i >= |sign| {
        assert s[i] == body[i - |sign|];
      }
    }
    assert forall c | NumberChar(c) :: c !in sign;
    hide IsSign;
    hide NumberChar;
  }

  lemma FractionOf(compact: string, w: string, sep: char, f: string, negative: bool, unit: string)
    requires Numeral(w) && Numeral(f) && (sep == ',' || sep == '.') && Unsigned(compact) == w + [sep] + f
    ensures ReadFraction(compact, sep, negative, unit) ==
              if |f| == 3 && |w| <= 3 then Ambiguous(ThreeDigitSeparator, unit)
              else Valid(ParseDecimal(w, f, negative), unit)
    ensures !PlainInteger(compact)
  {
    FractionBody(w, sep, f);
    hide Unsigned;
    hide IndexOf;
    hide Numeral;
    hide IsDigit;
    hide ParseDecimal;
  }

  lemma FractionCompact(sign: string, w: string, sep: char, f: string, unit: string)
    requires IsSign(sign) && Numeral(w) && Numeral(f) && (sep == ',' || sep == '.')
    ensures ReadNumber(sign + (w + [sep] + f), unit) ==
              if |f| == 3 && |w| <= 3 then Ambiguous(ThreeDigitSeparator, unit)
              else Valid(ParseDecimal(w, f, sign == "-"), unit)
    ensures NumberText(sign + (w + [sep] + f))
  {
    var body := w + [sep] + f;
    FractionBody(w, sep, f);
    SignOf(sign, body);
    SignedText(sign, body);
    FractionOf(sign + body, w, sep, f, sign == "-", unit);
    assert NumberChar(',') && NumberChar('.');
    assert (if sep == ',' then '.' else ',') !in body;
    hide IndexOf;
    hide NumberText;
    hide Numeral;
    hide IsSign;
    hide NumberChar;
    hide IsDigit;
    hide ParseDecimal;
    hide ReadFraction;
    hide PlainInteger;
  }

  lemma {:induction false} TailIsGroups(groups: seq<string>)
    requires groups != [] ==> Threes(groups)
    ensures GroupTail(Tail(groups)) && Remove(Tail(groups), '.') == Concat(groups) && AllDigits(Concat(groups))
    ensures ',' !in Tail(groups) && forall i | 0 <= i < |Tail(groups)| :: NumberChar(Tail(groups)[i])
  {
    if groups != [] {
      var g, rest := groups[0], Tail(groups[1..]);
      TailIsGroups(groups[1..]);
      assert Tail(groups) == "." + (g + rest);
      assert Tail(groups)[1..4] == g && Tail(groups)[4..] == rest && Tail(groups)[1..] == g + rest;
      RemoveFromDigits(g, rest);
      hide GroupTail;
      hide Remove;
    }
  }

  lemma GroupedBody(first: string, groups: seq<string>)
    requires 1 <= |first| <= 3 && AllDigits(first) && Threes(groups)
    ensures Grouped(first + Tail(groups)) && Remove(first + Tail(groups), '.') == first + Concat(groups)
    ensures '.' in first + Tail(groups) && ',' !in first + Tail(groups)
    ensures AllDigits(first + Concat(groups))
    ensures forall i | 0 <= i < |first + Tail(groups)| :: NumberChar((first + Tail(groups))[i])
  {
    var s := first + Tail(groups);
    TailIsGroups(groups);
    RemoveFromDigits(first, Tail(groups));
    assert s[..|first|] == first && s[|first|..] == Tail(groups) && s[|first|] == '.';
    hide GroupTail;
    hide Remove;
  }

  lemma GroupedWhole(whole: string, f: string)
    requires Grouped(whole) && ',' !in whole && '.' in whole && Numeral(f)
    requires forall i | 0 <= i < |whole| :: NumberChar(whole[i])
    ensures var body := whole + [','] + f;
            && IndexOf(body, ',') == |whole| && body[..|whole|] == whole && body[|whole| + 1..] == f
            && ',' in body && '.' in body && IsDigit(body[0]) && IsDigit(body[|body| - 1])
            && (forall i | 0 <= i < |body| :: NumberChar(body[i]))
  {
    var body := whole + [','] + f;
    CommaAfter(whole, f);
    assert body[|whole|] == ',' && body[0] == whole[0] && IsDigit(whole[..1][0]);
    var i :| 0 <= i < |whole| && whole[i] == '.';
    assert body[i] == '.';
    hide GroupTail;
  }

  lemma GroupedCompact(sign: string, first: string, groups: seq<string>, f: string, unit: string)
    requires IsSign(sign) && 1 <= |first| <= 3 && AllDigits(first) && Threes(groups) && Numeral(f)
    ensures AllDigits(first + Concat(groups))
    ensures ReadNumber(sign + (first + Tail(groups) + [','] + f), unit)
            == Valid(ParseDecimal(first + Concat(groups), f, sign == "-"), unit)
    ensures NumberText(sign + (first + Tail(groups) + [','] + f))
  {
    GroupedBody(first, groups);
    var whole := first + Tail(groups);
    var body := whole + [','] + f;
    GroupedWhole(whole, f);
    SignOf(sign, body);
    SignedText(sign, body);
    assert NumberChar(',') && NumberChar('.');
    hide Tail;
    hide Grouped;
    hide Remove;
    hide Concat;
    hide IndexOf;
    hide NumberText;
    hide IsSign;
    hide NumberChar;
    hide Threes;
  }

  lemma {:induction false} CommaAfter(whole: string, f: string)
    requires ',' !in whole
    ensures IndexOf(whole + [','] + f, ',') == |whole|
  {
    if whole != "" {
      CommaAfter(whole[1..], f);
      assert (whole + [','] + f)[1..] == whole[1..] + [','] + f;
    }
  }

  // ---- what a person writes is what is read

  /** A plain integer, with or without a sign and a unit, is read as itself. */
  lemma IntegerReads(nfkc: string -> string, raw: string, sign: string, w: string, s: string, unit: string)
    requires IsSign(sign) && Numeral(w) && Suffix(s, unit) && Strip(nfkc(raw)) == sign + w + s
    ensures var r := NormalizeDecimal(nfkc, raw); r.Valid? && r.unit == unit && Means(r.value, sign, w, "")
  {
    hide *;
    IntegerCompact(sign, w, unit);
    MeasureReads(nfkc, raw, sign + w, s, unit);
    assert AllDigits(w) && AllDigits("") by { DigitsOfNumeral(w); }
    ParsedMeans(sign, w, "");
  }

  lemma DigitsOfNumeral(w: string)
    ensures Numeral(w) ==> AllDigits(w)
    ensures AllDigits("")
  {
  }

  /**
   * A number with a decimal comma or point is refused as ambiguous exactly by the three-digit rule, and
   * otherwise read, in its unit, as the number its digits spell.
   */
  lemma DecimalReads(nfkc: string -> string, raw: string, sign: string, w: string, sep: char, f: string, s: string, unit: string)
    requires IsSign(sign) && Numeral(w) && Numeral(f) && (sep == ',' || sep == '.') && Suffix(s, unit)
    requires Strip(nfkc(raw)) == sign + (w + [sep] + f) + s
    ensures var r := NormalizeDecimal(nfkc, raw);
            if |f| == 3 && |w| <= 3 then r == Ambiguous(ThreeDigitSeparator, unit)
            else r.Valid? && r.unit == unit && Means(r.value, sign, w, f)
  {
    DigitsOfNumeral(w);
    DigitsOfNumeral(f);
    hide *;
    FractionCompact(sign, w, sep, f, unit);
    MeasureReads(nfkc, raw, sign + (w + [sep] + f), s, unit);
    ParsedMeans(sign, w, f);
  }

  /** A number in groups of three is read as the same text without its points. */
  lemma GroupedReads(nfkc: string -> string, raw: string, plain: string, sign: string, first: string, groups: seq<string>,
      f: string, s: string, unit: string)
    requires IsSign(sign) && 1 <= |first| <= 3 && AllDigits(first) && Threes(groups) && Numeral(f) && Suffix(s, unit)
    requires Strip(nfkc(raw)) == sign + (first + Tail(groups) + [','] + f) + s
    requires Strip(nfkc(plain)) == sign + (first + Concat(groups) + [','] + f) + s
    ensures AllDigits(first + Concat(groups))
    ensures var r := NormalizeDecimal(nfkc, raw);
            r.Valid? && r.unit == unit && Means(r.value, sign, first + Concat(groups), f) && NormalizeDecimal(nfkc, plain) == r
  {
    DigitsOfNumeral(f);
    ConcatSize(groups);
    GroupedCompact(sign, first, groups, f, unit);
    assert Numeral(first + Concat(groups)) && |first + Concat(groups)| > 3;
    hide *;
    MeasureReads(nfkc, raw, sign + (first + Tail(groups) + [','] + f), s, unit);
    FractionCompact(sign, first + Concat(groups), ',', f, unit);
    MeasureReads(nfkc, plain, sign + (first + Concat(groups) + [','] + f), s, unit);
    ParsedMeans(sign, first + Concat(groups), f);
  }

  lemma ConcatSize(groups: seq<string>)
    requires Threes(groups)
    ensures |Concat(groups)| >= 3
  {
  }

  // ---- and nothing else is read

  lemma {:induction false} TailSplits(s: string) returns (groups: seq<string>)
    requires GroupTail(s)
    ensures s == Tail(groups) && (groups != [] ==> Threes(groups))
  {
    groups := [];
    if s != "" {
      var rest := TailSplits(s[4..]);
      groups := [s[1..4]] + rest;
      assert groups[1..] == rest;
      assert s == "." + s[1..4] + s[4..];
    }
  }

  lemma GroupedSplits(s: string) returns (first: string, groups: seq<string>)
    requires Grouped(s)
    ensures 1 <= |first| <= 3 && AllDigits(first) && Threes(groups) && s == first + Tail(groups)
  {
    var k :| 1 <= k <= 3 && k < |s| && AllDigits(s[..k]) && GroupTail(s[k..]);
    first := s[..k];
    groups := TailSplits(s[k..]);
    assert groups != [];
  }

  predicate IntegerForm(compact: string, sign: string, w: string) {
    IsSign(sign) && Numeral(w) && compact == sign + w
  }

  predicate FractionForm(compact: string, sign: string, w: string, sep: char, f: string) {
    && IsSign(sign) && Numeral(w) && Numeral(f) && (sep == ',' || sep == '.') && !(|f| == 3 && |w| <= 3)
    && compact == sign + (w + [sep] + f)
  }

  predicate GroupedForm(compact: string, sign: string, first: string, groups: seq<string>, f: string) {
    && IsSign(sign) && 1 <= |first| <= 3 && AllDigits(first) && Threes(groups) && Numeral(f)
    && compact == sign + (first + Tail(groups) + [','] + f)
  }

  lemma SignSplits(compact: string) returns (sign: string)
    ensures IsSign(sign) && compact == sign + Unsigned(compact)
  {
    sign := if Signed(compact) then compact[..1] else "";
  }

  /** A number is read exactly if it is an integer, an unambiguous fraction, or in groups with a decimal comma. */
  lemma ReadIffForm(compact: string, unit: string)
    ensures ReadNumber(compact, unit).Valid? <==>
              || (exists sign, w :: IntegerForm(compact, sign, w))
              || (exists sign, w, sep, f :: FractionForm(compact, sign, w, sep, f))
              || (exists sign, first, groups, f :: GroupedForm(compact, sign, first, groups, f))
  {
    if ReadNumber(compact, unit).Valid? {
      ReadIsForm(compact, unit);
    } else {
      hide ReadNumber;
      if exists sign, w :: IntegerForm(compact, sign, w) {
        var sign, w :| IntegerForm(compact, sign, w);
        IntegerCompact(sign, w, unit);
      }
      if exists sign, w, sep, f :: FractionForm(compact, sign, w, sep, f) {
        var sign, w, sep, f :| FractionForm(compact, sign, w, sep, f);
        FractionCompact(sign, w, sep, f, unit);
      }
      if exists sign, first, groups, f :: GroupedForm(compact, sign, first, groups, f) {
        var sign, first, groups, f :| GroupedForm(compact, sign, first, groups, f);
        GroupedCompact(sign, first, groups, f, unit);
      }
    }
  }

  lemma FractionIsForm(compact: string, sep: char, negative: bool, unit: string)
    requires ReadFraction(compact, sep, negative, unit).Valid? && (sep == ',' || sep == '.')
    ensures exists sign, w, f :: FractionForm(compact, sign, w, sep, f)
  {
    var sign := SignSplits(compact);
    hide IsSign;
    hide Numeral;
    hide ParseDecimal;
    var body := Unsigned(compact);
    hide Unsigned;
    var at := IndexOf(body, sep);
    hide IndexOf;
    assert body == body[..at] + [sep] + body[at + 1..];
    assert FractionForm(compact, sign, body[..at], sep, body[at + 1..]);
  }

  lemma BodySplits(body: string, comma: nat, whole: string)
    requires comma < |body| && body[comma] == ',' && whole == body[..comma]
    ensures body == whole + [','] + body[comma + 1..]
  {
  }

  lemma GroupedIsForm(compact: string)
    requires GermanGrouped(compact)
    ensures exists sign, first, groups, f :: GroupedForm(compact, sign, first, groups, f)
  {
    var sign := SignSplits(compact);
    var body := Unsigned(compact);
    var comma := IndexOf(body, ',');
    var whole, f := body[..comma], body[comma + 1..];
    assert body[comma] == ',' && Numeral(f) && Grouped(whole);
    hide *;
    BodySplits(body, comma, whole);
    var first, groups := GroupedSplits(whole);
    FormOf(compact, sign, first, groups, f);
  }

  lemma FormOf(compact: string, sign: string, first: string, groups: seq<string>, f: string)
    requires IsSign(sign) && 1 <= |first| <= 3 && AllDigits(first) && Threes(groups) && Numeral(f)
    requires compact == sign + (first + Tail(groups) + [','] + f)
    ensures GroupedForm(compact, sign, first, groups, f)
  {
  }

  lemma ReadIsForm(compact: string, unit: string)
    requires ReadNumber(compact, unit).Valid?
    ensures || (exists sign, w :: IntegerForm(compact, sign, w))
            || (exists sign, w, sep, f :: FractionForm(compact, sign, w, sep, f))
            || (exists sign, first, groups, f :: GroupedForm(compact, sign, first, groups, f))
  {
    hide FractionForm;
    hide GroupedForm;
    hide GermanGrouped;
    hide ReadFraction;
    hide ReadGrouped;
    hide Numeral;
    hide IsSign;
    hide Unsigned;
    if ',' in compact && '.' in compact {
      GroupedIsForm(compact);
    } else if PlainInteger(compact) {
      var sign := SignSplits(compact);
      assert IntegerForm(compact, sign, Unsigned(compact));
    } else {
      FractionIsForm(compact, if ',' in compact then ',' else '.', compact != "" && compact[0] == '-', unit);
    }
  }

  /** With a point and a comma a number is refused as ambiguous exactly if it is not in groups. */
  lemma MixedIff(compact: string, unit: string)
    ensures ReadNumber(compact, unit) == Ambiguous(MixedSeparators, unit) <==>
              ',' in compact && '.' in compact && !(exists sign, first, groups, f :: GroupedForm(compact, sign, first, groups, f))
  {
    hide GroupedForm;
    if ',' in compact && '.' in compact {
      if GermanGrouped(compact) {
        GroupedIsForm(compact);
      } else if exists sign, first, groups, f :: GroupedForm(compact, sign, first, groups, f) {
        var sign, first, groups, f :| GroupedForm(compact, sign, first, groups, f);
        FormReads(compact, sign, first, groups, f, unit);
      }
    }
    hide GermanGrouped;
    hide ReadGrouped;
    hide PlainInteger;
    hide PlainFraction;
    hide ParseDecimal;
  }

  lemma FormReads(compact: string, sign: string, first: string, groups: seq<string>, f: string, unit: string)
    requires GroupedForm(compact, sign, first, groups, f)
    ensures ReadNumber(compact, unit).Valid?
  {
    GroupedCompact(sign, first, groups, f, unit);
    hide ReadNumber;
  }

  /** A hyphen, a dash of either length, or the word. */
  predicate Link(s: string) { s in {"-", "\U{2013}", "\U{2014}"} || (|s| == 3 && CaseFold(s) == "bis") }

  lemma LinkStart(link: string, rest: string)
    requires Link(link)
    ensures link != "" && !IsSpace(link[0])
    ensures IsDash(link[0]) ==> |link| == 1
    ensures !IsDash(link[0]) ==> |link| == 3
  {
    if |link| == 3 {
      FoldedChar(link[0]);
      assert CaseFold(link)[0] == FoldChar(link[0])[0];
    }
    hide FoldChar;
  }

  lemma RangeFollows(gap: string, link: string, gap': string, e: char, rest: string)
    requires Blank(gap) && Link(link) && Blank(gap') && IsDigit(e)
    ensures RangeTail(gap + (link + (gap' + ([e] + rest))))
  {
    var end := [e] + rest;
    var mid := gap' + end;
    LinkStart(link, mid);
    BlanksDropped(gap', end);
    BlanksDropped(gap, link + mid);
    var t := link + mid;
    if IsDash(link[0]) {
      assert t[1..] == mid;
    } else {
      assert t[..3] == link && t[3..] == mid;
    }
    hide CaseFold;
  }

  /** Two digits with a dash or `bis` between them, with or without blanks, make the whole text a range. */
  lemma RangeIsRefused(nfkc: string -> string, raw: string, before: string, d: char, gap: string, link: string, gap': string,
      e: char, rest: string)
    requires IsDigit(d) && Blank(gap) && Link(link) && Blank(gap') && IsDigit(e)
    requires Strip(nfkc(raw)) == before + ([d] + (gap + (link + (gap' + ([e] + rest)))))
    ensures NormalizeDecimal(nfkc, raw) == Ambiguous(NumericRange, "")
  {
    var tail := gap + (link + (gap' + ([e] + rest)));
    var text := before + ([d] + tail);
    RangeFollows(gap, link, gap', e, rest);
    assert text[|before|] == d && text[|before| + 1..] == tail;
    hide RangeTail;
    hide Link;
    hide Blank;
    assert HasRange(text);
  }

  /** A number before a word that names no unit is refused, whatever the number. */
  lemma UnknownUnitIsRefused(nfkc: string -> string, raw: string, number: string, gap: string, word: string)
    requires NumberText(number) && Blank(gap) && UnitWord(word) && UnitAlias(CaseFold(word)) == None
    requires Strip(nfkc(raw)) == number + (gap + word)
    ensures NormalizeDecimal(nfkc, raw) == Invalid(UnknownUnit, "")
  {
    var s := gap + word;
    WordStart(word);
    WordIsUnitTail(gap, word);
    SuffixChars(gap, word);
    NoRangeInNumber(number, s);
    UnitFound(number, s, 1);
    assert (number + s)[..|number|] == number && (number + s)[|number|..] == s;
    hide HasRange;
    hide UnitStart;
    hide UnitAlias;
    hide CaseFold;
    hide NumberText;
    hide UnitWord;
    hide Blank;
  }

  lemma AcceptedWithUnit(text: string)
    requires UnitStart(text, 1).Some?
    requires ReadMeasure(text[..UnitStart(text, 1).value], DropLeft(text[UnitStart(text, 1).value..], IsSpace)).Valid?
    ensures var n := UnitStart(text, 1).value;
            var r := ReadMeasure(text[..n], DropLeft(text[n..], IsSpace));
            Suffix(text[n..], r.unit) && ReadNumber(RemoveSpaces(Strip(text[..n])), r.unit) == r
  {
    var n := UnitStart(text, 1).value;
    var rest := text[n..];
    var k := DropLeftIsSuffix(rest, IsSpace);
    var unit := UnitAlias(CaseFold(DropLeft(rest, IsSpace)));
    ReadKeepsUnit(RemoveSpaces(Strip(text[..n])), unit.value);
    AliasIsWord(rest[k..]);
    hide *;
    SuffixAt(rest, k, unit.value);
  }

  lemma SuffixAt(s: string, k: nat, unit: string)
    requires k < |s| && (forall i | 0 <= i < k :: IsSpace(s[i])) && UnitAlias(CaseFold(s[k..])) == Some(unit)
    ensures Suffix(s, unit)
  {
    assert Blank(s[..k]);
    hide UnitAlias;
    hide CaseFold;
    hide IsSpace;
  }

  lemma ReadKeepsUnit(compact: string, unit: string)
    ensures ReadNumber(compact, unit).unit == unit
  {
    hide GermanGrouped;
    hide ReadGrouped;
    hide PlainInteger;
    hide PlainFraction;
    hide ParseDecimal;
  }

  lemma NormalizedText(nfkc: string -> string, raw: string)
    requires NormalizeDecimal(nfkc, raw).Valid?
    ensures var text := Strip(nfkc(raw));
            && !HasRange(text)
            && NormalizeDecimal(nfkc, raw) ==
                 match UnitStart(text, 1)
                 case Some(n) => ReadMeasure(text[..n], DropLeft(text[n..], IsSpace))
                 case None => ReadNumber(RemoveSpaces(text), "")
  {
    hide HasRange;
    hide HasUnitSign;
    hide UnitStart;
    hide ReadMeasure;
    hide ReadNumber;
    hide RemoveSpaces;
    hide Strip;
  }

  /** The text is a number in front of nothing or of a recognised unit, and the number alone is read as `r`. */
  ghost predicate Measures(text: string, r: Reading) {
    exists number, s :: text == number + s && Suffix(s, r.unit) && ReadNumber(RemoveSpaces(Strip(number)), r.unit) == r
  }

  lemma Measured(number: string, s: string, r: Reading)
    requires Suffix(s, r.unit) && ReadNumber(RemoveSpaces(Strip(number)), r.unit) == r
    ensures Measures(number + s, r)
  {
    hide Suffix;
    hide ReadNumber;
    hide RemoveSpaces;
    hide Strip;
  }

  lemma MeasuredWithUnit(text: string)
    requires UnitStart(text, 1).Some?
    requires ReadMeasure(text[..UnitStart(text, 1).value], DropLeft(text[UnitStart(text, 1).value..], IsSpace)).Valid?
    ensures Measures(text, ReadMeasure(text[..UnitStart(text, 1).value], DropLeft(text[UnitStart(text, 1).value..], IsSpace)))
  {
    hide *;
    hide Measures;
    var n := UnitStart(text, 1).value;
    AcceptedWithUnit(text);
    Measured(text[..n], text[n..], ReadMeasure(text[..n], DropLeft(text[n..], IsSpace)));
    assert text == text[..n] + text[n..];
  }

  lemma MeasuredWithoutUnit(t: string)
    ensures Measures(Strip(t), ReadNumber(RemoveSpaces(Strip(t)), ""))
  {
    hide *;
    hide Measures;
    StripIdempotent(t);
    var text := Strip(t);
    ReadKeepsUnit(RemoveSpaces(text), "");
    NothingIsSuffix();
    Measured(text, "", ReadNumber(RemoveSpaces(text), ""));
    assert text == text + "";
  }

  lemma NothingIsSuffix()
    ensures Suffix("", "")
  {
  }

  /** Whatever is read as a number is one of the three forms, in front of nothing or of a recognised unit, and no range. */
  lemma AcceptedIsNumber(nfkc: string -> string, raw: string)
    requires NormalizeDecimal(nfkc, raw).Valid?
    ensures !HasRange(Strip(nfkc(raw))) && Measures(Strip(nfkc(raw)), NormalizeDecimal(nfkc, raw))
  {
    NormalizedText(nfkc, raw);
    hide *;
    hide Measures;
    var text := Strip(nfkc(raw));
    match UnitStart(text, 1)
    case Some(n) => MeasuredWithUnit(text);
    case None => MeasuredWithoutUnit(nfkc(raw));
  }

  /** Which unit a spelling stands for, without regard to case. */
  lemma UnitsAre(spelling: string)
    ensures var folded, unit := CaseFold(spelling), UnitAlias(CaseFold(spelling));
            && (unit == Some("%") <==> folded in {"%", "prozent"})
            && (unit == Some("min") <==> folded in {"min", "minute", "minuten"})
            && (unit == Some("h") <==> folded in {"h", "std", "stunde", "stunden"})
            && (unit == Some("EUR") <==> folded in {"\U{20AC}", "eur", "euro"})
            && (unit == Some("count") <==> folded in {"anzahl", "fall", "f\U{E4}lle", "faelle", "st\U{FC}ck", "stueck"})
            && (unit.Some? ==> unit.value in {"%", "min", "h", "EUR", "count"})
  {
    hide CaseFold;
  }
}
