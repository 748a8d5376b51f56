/** `canonicalize_text`: the text form in which a target value is snapshotted, compared and stored. */
module Canonical {
  import opened Texts

  /** `value.replace("\r\n", "\n")` */
  function ReplaceCrLf(s: string): string {
    if s == "" then ""
    else if |s| > 1 && s[0] == '\r' && s[1] == '\n' then ['\n'] + ReplaceCrLf(s[2..])
    else [s[0]] + ReplaceCrLf(s[1..])
  }

  /** `value.replace("\r", "\n")` */
  function ReplaceCr(s: string): string {
    seq(|s|, i requires 0 <= i < |s| => if s[i] == '\r' then '\n' else s[i])
  }

  function Lines(s: string): (ls: seq<string>)
    ensures |ls| > 0
  {
    if s == "" then [""]
    else
      var rest := Lines(s[1..]);
      if s[0] == '\n' then [""] + rest else [[s[0]] + rest[0]] + rest[1..]
  }

  function Unlines(ls: seq<string>): string
    requires |ls| > 0
  {
    if |ls| == 1 then ls[0] else ls[0] + "\n" + Unlines(ls[1..])
  }

  function TrimLines(s: string): string {
    var ls := Lines(s);
    Unlines(seq(|ls|, i requires 0 <= i < |ls| => DropRight(ls[i], IsBlank)))
  }

  /** The normalization form C the code asks of `unicodedata` is a parameter. */
  function Canonicalize(nfc: string -> string, value: string): string {
    Strip(TrimLines(nfc(ReplaceCr(ReplaceCrLf(value)))))
  }

  /**
   * What canonicalisation relies on: normalizing twice changes nothing, a substring of a
   * normalized text is normalized (section 1.4 of UAX #15), joining two normalized texts with a
   * line feed keeps them normalized (the line feed is a starter that composes with nothing), and
   * no carriage return appears that was not there.
   */
  ghost predicate IsNormalForm(nfc: string -> string) {
    && (forall s :: nfc(nfc(s)) == nfc(s))
    && (forall s, i, j :: 0 <= i <= j <= |s| && nfc(s) == s ==> nfc(s[i..j]) == s[i..j])
    && (forall s, t :: nfc(s) == s && nfc(t) == t ==> nfc(s + "\n" + t) == s + "\n" + t)
    && (forall s :: '\r' !in s ==> '\r' !in nfc(s))
  }

  /** A text in which no line ends in a space or tab before its line feed. */
  ghost predicate NoTrailingBlanks(s: string) {
    forall i | 0 <= i < |s| - 1 :: s[i + 1] == '\n' ==> !IsBlank(s[i])
  }

  /** An independent description of the canonical texts. */
  ghost predicate Settled(nfc: string -> string, s: string) {
    '\r' !in s && nfc(s) == s && NoTrailingBlanks(s) && Trimmed(s)
  }

  lemma {:induction false} CrLfWithoutCr(s: string)
    requires '\r' !in s
    ensures ReplaceCrLf(s) == s
  {
    if s != "" {
      assert s == [s[0]] + s[1..];
      CrLfWithoutCr(s[1..]);
    }
  }

  lemma {:induction false} UnlinesLines(s: string)
    ensures Unlines(Lines(s)) == s
    ensures forall i | 0 <= i < |Lines(s)| :: '\n' !in Lines(s)[i]
  {
    if s != "" {
      UnlinesLines(s[1..]);
      var rest := Lines(s[1..]);
      assert s == [s[0]] + s[1..];
      if s[0] == '\n' {
        assert ([""] + rest)[1..] == rest;
      } else {
        var ls := [[s[0]] + rest[0]] + rest[1..];
        assert ls[1..] == rest[1..];
      }
    }
  }

  /** Cutting the trailing blanks off every line leaves no blank before a line feed or at the end. */
  lemma {:induction false} TrimmedLines(nfc: string -> string, ls: seq<string>)
    requires IsNormalForm(nfc) && |ls| > 0
    requires forall i | 0 <= i < |ls| :: '\n' !in ls[i] && '\r' !in ls[i]
    requires forall i | 0 <= i < |ls| :: ls[i] == DropRight(ls[i], IsBlank) && nfc(ls[i]) == ls[i]
    ensures NoTrailingBlanks(Unlines(ls)) && '\r' !in Unlines(ls)
    ensures nfc(Unlines(ls)) == Unlines(ls)
  {
    var s := Unlines(ls);
    var _ := DropRightIsPrefix(ls[0], IsBlank);
    if |ls| > 1 {
      TrimmedLines(nfc, ls[1..]);
      var rest := Unlines(ls[1..]);
      assert s == ls[0] + "\n" + rest;
      assert forall k | 0 <= k < |ls[0]| :: s[k] == ls[0][k];
      forall i | 0 <= i < |s| - 1 && s[i + 1] == '\n' ensures !IsBlank(s[i]) {
        if i + 1 == |ls[0]| {
          assert s[i] == ls[0][i];
        } else if i > |ls[0]| {
          var k := i - |ls[0]| - 1;
          assert s[i] == rest[k] && s[i + 1] == rest[k + 1];
        }
      }
    } else {
      assert '\n' !in s;
    }
  }

  lemma {:induction false} LinesAreSlices(s: string, k: nat) returns (i: nat, j: nat)
    requires k < |Lines(s)|
    ensures i <= j <= |s| && Lines(s)[k] == s[i..j]
    ensures k == 0 ==> i == 0
  {
    if s == "" {
      i, j := 0, 0;
    } else {
      var rest := Lines(s[1..]);
      if s[0] == '\n' {
        if k == 0 {
          i, j := 0, 0;
        } else {
          i, j := LinesAreSlices(s[1..], k - 1);
          assert s[1..][i..j] == s[i + 1..j + 1];
          i, j := i + 1, j + 1;
        }
      } else {
        i, j := LinesAreSlices(s[1..], k);
        if k == 0 {
          assert [s[0]] + s[1..][i..j] == s[0..j + 1];
          i, j := 0, j + 1;
        } else {
          assert s[1..][i..j] == s[i + 1..j + 1];
          i, j := i + 1, j + 1;
        }
      }
    }
  }

  lemma TrimLinesSettles(nfc: string -> string, s: string)
    requires IsNormalForm(nfc) && nfc(s) == s && '\r' !in s
    ensures var t := TrimLines(s); NoTrailingBlanks(t) && '\r' !in t && nfc(t) == t
  {
    UnlinesLines(s);
    var ls := Lines(s);
    var cut := seq(|ls|, i requires 0 <= i < |ls| => DropRight(ls[i], IsBlank));
    forall k | 0 <= k < |cut|
      ensures '\n' !in cut[k] && '\r' !in cut[k]
      ensures cut[k] == DropRight(cut[k], IsBlank) && nfc(cut[k]) == cut[k]
    {
      var i, j := LinesAreSlices(s, k);
      var n := DropRightIsPrefix(ls[k], IsBlank);
      assert cut[k] == s[i..i + n];
    }
    TrimmedLines(nfc, cut);
  }

  /** A text without blanks before a line feed or at its end survives line trimming unchanged. */
  lemma {:induction false} TrimLinesKeeps(s: string)
    requires NoTrailingBlanks(s)
    requires s != "" ==> !IsBlank(s[|s| - 1])
    ensures TrimLines(s) == s
  {
    UnlinesLines(s);
    var ls := Lines(s);
    var cut := seq(|ls|, i requires 0 <= i < |ls| => DropRight(ls[i], IsBlank));
    forall k | 0 <= k < |ls| ensures cut[k] == ls[k] {
      LineEndsVisible(s, k);
    }
    assert cut == ls;
  }

  lemma {:induction false} LineEndsVisible(s: string, k: nat)
    requires k < |Lines(s)| && NoTrailingBlanks(s)
    requires s != "" ==> !IsBlank(s[|s| - 1])
    ensures var l := Lines(s)[k]; l != "" ==> !IsBlank(l[|l| - 1])
  {
    if s != "" {
      var tail := s[1..];
      var rest := Lines(tail);
      forall i | 0 <= i < |tail| - 1 && tail[i + 1] == '\n' ensures !IsBlank(tail[i]) {
        assert s[i + 2] == '\n';
      }
      if s[0] == '\n' {
        if k > 0 {
          LineEndsVisible(tail, k - 1);
        }
      } else {
        LineEndsVisible(tail, k);
        if k == 0 && rest[0] == "" {
          assert tail == "" || s[1] == '\n';
        }
      }
    }
  }

  /** The canonicaliser returns a settled text, and settled texts are exactly its fixpoints. */
  lemma CanonicalIffSettled(nfc: string -> string, value: string)
    requires IsNormalForm(nfc)
    ensures Settled(nfc, Canonicalize(nfc, value))
    ensures Settled(nfc, value) <==> Canonicalize(nfc, value) == value
  {
    var flat := ReplaceCr(ReplaceCrLf(value));
    assert '\r' !in flat;
    var normal := nfc(flat);
    TrimLinesSettles(nfc, normal);
    var t := TrimLines(normal);
    var i, j := StripIsSlice(t);
    forall k | 0 <= k < |Strip(t)| - 1 && Strip(t)[k + 1] == '\n' ensures !IsBlank(Strip(t)[k]) {
      assert t[i + k + 1] == '\n';
    }
    if Settled(nfc, value) {
      CrLfWithoutCr(value);
      assert flat == value;
      TrimLinesKeeps(value);
      TrimmedIsStripped(value);
    }
  }

  lemma CanonicalizeIdempotent(nfc: string -> string, value: string)
    requires IsNormalForm(nfc)
    ensures Canonicalize(nfc, Canonicalize(nfc, value)) == Canonicalize(nfc, value)
  {
    CanonicalIffSettled(nfc, value);
    CanonicalIffSettled(nfc, Canonicalize(nfc, value));
  }

  // ---- only the presentation is lost

  /** Lines joined by some line end. */
  function Join(ls: seq<string>, end: string): string
    requires |ls| > 0
  {
    if |ls| == 1 then ls[0] else ls[0] + end + Join(ls[1..], end)
  }

  predicate LineEnd(end: string) { end == "\n" || end == "\r" || end == "\r\n" }

  predicate PlainLines(ls: seq<string>) {
    |ls| > 0 && forall i | 0 <= i < |ls| :: '\n' !in ls[i] && '\r' !in ls[i]
  }

  lemma {:induction false} CrLfAfterLine(l: string, rest: string)
    requires '\r' !in l
    ensures ReplaceCrLf(l + rest) == l + ReplaceCrLf(rest)
  {
    if l == "" {
      assert l + rest == rest;
    } else {
      assert (l + rest)[1..] == l[1..] + rest;
      CrLfAfterLine(l[1..], rest);
    }
  }

  lemma CrAfterLine(l: string, rest: string)
    requires '\r' !in l
    ensures ReplaceCr(l + rest) == l + ReplaceCr(rest)
  {
  }

  lemma EndIsFlattened(end: string, rest: string)
    requires LineEnd(end) && (end == "\r" ==> rest == "" || rest[0] != '\n')
    ensures ReplaceCr(ReplaceCrLf(end + rest)) == "\n" + ReplaceCr(ReplaceCrLf(rest))
  {
    var flat := ReplaceCrLf(rest);
    if end == "\r\n" {
      assert (end + rest)[2..] == rest;
      assert ReplaceCr("\n" + flat) == "\n" + ReplaceCr(flat);
    } else {
      assert (end + rest)[1..] == rest;
      assert ReplaceCr(end + flat) == "\n" + ReplaceCr(flat);
    }
  }

  lemma FlatLine(l: string, end: string, rest: string)
    requires '\n' !in l && '\r' !in l && LineEnd(end) && (end == "\r" ==> rest == "" || rest[0] != '\n')
    ensures ReplaceCr(ReplaceCrLf(l + end + rest)) == l + "\n" + ReplaceCr(ReplaceCrLf(rest))
  {
    assert l + end + rest == l + (end + rest);
    CrLfAfterLine(l, end + rest);
    CrAfterLine(l, ReplaceCrLf(end + rest));
    EndIsFlattened(end, rest);
    hide ReplaceCr;
    hide ReplaceCrLf;
  }

  lemma JoinStart(ls: seq<string>, end: string)
    requires PlainLines(ls) && end == "\r"
    ensures var s := Join(ls, end); s == "" || s[0] != '\n'
  {
  }

  lemma {:induction false} LineEndsAreFlattened(ls: seq<string>, end: string)
    requires PlainLines(ls) && LineEnd(end)
    ensures ReplaceCr(ReplaceCrLf(Join(ls, end))) == Unlines(ls)
  {
    if |ls| == 1 {
      CrLfWithoutCr(ls[0]);
    } else {
      LineEndsAreFlattened(ls[1..], end);
      if end == "\r" {
        JoinStart(ls[1..], end);
      }
      FlatLine(ls[0], end, Join(ls[1..], end));
    }
  }

  /** How lines end makes no difference to the canonical text. */
  lemma LineEndsDoNotMatter(nfc: string -> string, ls: seq<string>, a: string, b: string)
    requires PlainLines(ls) && LineEnd(a) && LineEnd(b)
    ensures Canonicalize(nfc, Join(ls, a)) == Canonicalize(nfc, Join(ls, b))
  {
    LineEndsAreFlattened(ls, a);
    LineEndsAreFlattened(ls, b);
  }

  lemma {:induction false} LinesOfLine(l: string)
    requires '\n' !in l
    ensures Lines(l) == [l]
  {
    if l != "" {
      LinesOfLine(l[1..]);
      assert l == [l[0]] + l[1..];
    }
  }

  lemma {:induction false} LinesOfStart(l: string, rest: string)
    requires '\n' !in l
    ensures Lines(l + "\n" + rest) == [l] + Lines(rest)
  {
    if l == "" {
      assert l + "\n" + rest == "\n" + rest;
    } else {
      assert (l + "\n" + rest)[1..] == l[1..] + "\n" + rest;
      LinesOfStart(l[1..], rest);
      assert [l[0]] + l[1..] == l;
    }
  }

  lemma {:induction false} LinesOfUnlines(ls: seq<string>)
    requires |ls| > 0 && forall i | 0 <= i < |ls| :: '\n' !in ls[i]
    ensures Lines(Unlines(ls)) == ls
  {
    if |ls| == 1 {
      LinesOfLine(ls[0]);
    } else {
      LinesOfUnlines(ls[1..]);
      LinesOfStart(ls[0], Unlines(ls[1..]));
    }
  }

  /** The line without its trailing spaces and tabs. */
  predicate TrimmedOf(line: string, trimmed: string) {
    && trimmed <= line && (forall k | |trimmed| <= k < |line| :: IsBlank(line[k]))
    && (trimmed != "" ==> !IsBlank(trimmed[|trimmed| - 1]))
  }

  /**
   * What the canonical text keeps. Line by line it is the normalised text without the blanks at the end of
   * each line, and of the result nothing but white space at both ends is cut off.
   */
  lemma CanonicalKeepsLines(nfc: string -> string, value: string) returns (t: string, i: nat, j: nat)
    ensures var n := nfc(ReplaceCr(ReplaceCrLf(value)));
            |Lines(t)| == |Lines(n)| && forall k | 0 <= k < |Lines(n)| :: TrimmedOf(Lines(n)[k], Lines(t)[k])
    ensures i <= j <= |t| && Canonicalize(nfc, value) == t[i..j]
    ensures forall k | 0 <= k < |t| && !(i <= k < j) :: IsSpace(t[k])
  {
    var n := nfc(ReplaceCr(ReplaceCrLf(value)));
    t := TrimLines(n);
    UnlinesLines(n);
    var ls := Lines(n);
    var cut := seq(|ls|, k requires 0 <= k < |ls| => DropRight(ls[k], IsBlank));
    forall k | 0 <= k < |ls| ensures TrimmedOf(ls[k], cut[k]) && '\n' !in cut[k] {
      var _ := DropRightIsPrefix(ls[k], IsBlank);
    }
    LinesOfUnlines(cut);
    hide *;
    i, j := StripIsSlice(t);
  }
}
