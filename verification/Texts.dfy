/** Python string trimming, shared by the canonicaliser, the validators and the decimal reader. */
module Texts {

  /** The characters `str.strip()` removes: those for which `str.isspace()` holds. */
  predicate IsSpace(c: char) {
    || '\t' <= c <= '\r'
    || '\U{1C}' <= c <= ' '
    || c == '\U{85}' || c == '\U{A0}' || c == '\U{1680}'
    || '\U{2000}' <= c <= '\U{200A}'
    || c == '\U{2028}' || c == '\U{2029}' || c == '\U{202F}'
    || c == '\U{205F}' || c == '\U{3000}'
  }

  /** The characters `line.rstrip(" \t")` removes. */
  predicate IsBlank(c: char) {
    c == ' ' || c == '\t'
  }

  function DropLeft(s: string, p: char -> bool): string {
    if s != "" && p(s[0]) then DropLeft(s[1..], p) else s
  }

  function DropRight(s: string, p: char -> bool): string {
    if s != "" && p(s[|s| - 1]) then DropRight(s[..|s| - 1], p) else s
  }

  function Strip(s: string): string {
    DropRight(DropLeft(s, IsSpace), IsSpace)
  }

  /** Some character of the text is visible. */
  predicate HasInk(s: string) {
    exists i | 0 <= i < |s| :: !IsSpace(s[i])
  }

  predicate Trimmed(s: string) {
    s == "" || (!IsSpace(s[0]) && !IsSpace(s[|s| - 1]))
  }

  lemma {:induction false} DropLeftIsSuffix(s: string, p: char -> bool) returns (i: nat)
    ensures i <= |s| && DropLeft(s, p) == s[i..]
    ensures forall k | 0 <= k < i :: p(s[k])
    ensures i < |s| ==> !p(s[i])
  {
    i := 0;
    if s != "" && p(s[0]) {
      i := DropLeftIsSuffix(s[1..], p);
      assert s[1..][i..] == s[i + 1..];
      assert forall k | 0 < k < i + 1 :: s[k] == s[1..][k - 1];
      i := i + 1;
    }
  }

  lemma {:induction false} DropRightIsPrefix(s: string, p: char -> bool) returns (j: nat)
    ensures j <= |s| && DropRight(s, p) == s[..j]
    ensures forall k | j <= k < |s| :: p(s[k])
    ensures j > 0 ==> !p(s[j - 1])
  {
    j := |s|;
    if s != "" && p(s[|s| - 1]) {
      var t := s[..|s| - 1];
      j := DropRightIsPrefix(t, p);
      assert t[..j] == s[..j];
      assert forall k | 0 <= k < |t| :: s[k] == t[k];
    }
  }

  /** Stripping cuts out one slice, whose ends are visible, and loses no visible character. */
  lemma StripIsSlice(s: string) returns (i: nat, j: nat)
    ensures i <= j <= |s| && Strip(s) == s[i..j] && Trimmed(Strip(s))
    ensures forall k | 0 <= k < |s| && !(i <= k < j) :: IsSpace(s[k])
    ensures Strip(s) == "" <==> !HasInk(s)
  {
    var left := DropLeft(s, IsSpace);
    i := DropLeftIsSuffix(s, IsSpace);
    var n := DropRightIsPrefix(left, IsSpace);
    j := i + n;
    assert left[..n] == s[i..j];
    assert forall k | n <= k < |left| :: s[i + k] == left[k];
    if n == 0 {
      assert i == |s|;
    } else {
      assert !IsSpace(s[i]);
    }
  }

  lemma TrimmedIsStripped(s: string)
    requires Trimmed(s)
    ensures Strip(s) == s
  {
  }

  lemma StripIdempotent(s: string)
    ensures Trimmed(Strip(s)) && Strip(Strip(s)) == Strip(s)
    ensures Strip(s) == "" <==> !HasInk(s)
  {
    var _, _ := StripIsSlice(s);
    TrimmedIsStripped(Strip(s));
  }
}
