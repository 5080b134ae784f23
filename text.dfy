/**
 * String primitives the forwarding path relies on: character filters (the
 * `replace(/[^\d]/g, '')` family), JavaScript's `String.prototype.trim`,
 * the first-occurrence search behind `String.prototype.replace` with a string
 * pattern and behind Python's `in`, and an ASCII lower-casing.
 */
module Text {
  import opened Wrappers

  predicate IsDigit(c: char) {
    '0' <= c <= '9'
  }

  /** Characters kept by the regular expression `[\d+]`. */
  predicate IsPhoneChar(c: char) {
    IsDigit(c) || c == '+'
  }

  /** The characters of `s` that satisfy `keep`, in their original order. */
  function Filter(s: string, keep: char -> bool): (r: string)
    ensures |r| <= |s|
    ensures forall i :: 0 <= i < |r| ==> keep(r[i])
  {
    if s == [] then []
    else (if keep(s[0]) then [s[0]] else []) + Filter(s[1..], keep)
  }

  /** `s.replace(/[^\d]/g, '')` */
  function DigitsOnly(s: string): string {
    Filter(s, IsDigit)
  }

  /** `s.replace(/[^\d+]/g, '')` */
  function PhoneCharsOnly(s: string): string {
    Filter(s, IsPhoneChar)
  }

  lemma {:induction false} FilterConcat(a: string, b: string, keep: char -> bool)
    ensures Filter(a + b, keep) == Filter(a, keep) + Filter(b, keep)
  {
    if a == [] {
      assert a + b == b;
    } else {
      assert (a + b)[0] == a[0];
      assert (a + b)[1..] == a[1..] + b;
      FilterConcat(a[1..], b, keep);
    }
  }

  /** Filtering keeps a string whose every character passes, and only such a string. */
  lemma {:induction false} FilterIdentity(s: string, keep: char -> bool)
    ensures Filter(s, keep) == s <==> forall i :: 0 <= i < |s| ==> keep(s[i])
  {
    if s != [] {
      FilterIdentity(s[1..], keep);
      if !keep(s[0]) {
        assert |Filter(s, keep)| < |s|;
      }
    }
  }

  /** A one-character string keeps its character exactly when it passes. */
  lemma FilterSingle(c: char, keep: char -> bool)
    ensures Filter([c], keep) == (if keep(c) then [c] else [])
  {
    assert [c][1..] == [];
  }

  /** Filtering twice with the same test is filtering once. */
  lemma FilterIdempotent(s: string, keep: char -> bool)
    ensures Filter(Filter(s, keep), keep) == Filter(s, keep)
  {
    FilterIdentity(Filter(s, keep), keep);
  }

  // ---------------------------------------------------------------------
  // Trimming (String.prototype.trim)

  /** The white-space and line-terminator characters that `trim` removes. */
  predicate IsJsWhitespace(c: char) {
    c in {'\t', '\n', '\U{B}', '\U{C}', '\r', ' ', '\U{A0}', '\U{1680}',
          '\U{2000}', '\U{2001}', '\U{2002}', '\U{2003}', '\U{2004}', '\U{2005}',
          '\U{2006}', '\U{2007}', '\U{2008}', '\U{2009}', '\U{200A}',
          '\U{2028}', '\U{2029}', '\U{202F}', '\U{205F}', '\U{3000}', '\U{FEFF}'}
  }

  predicate AllWhitespace(s: string) {
    forall i :: 0 <= i < |s| ==> IsJsWhitespace(s[i])
  }

  predicate NoWhitespace(s: string) {
    forall i :: 0 <= i < |s| ==> !IsJsWhitespace(s[i])
  }

  /** The index of the first character at or after `i` that is not white space, or `|s|`. */
  function SkipForward(s: string, i: nat): (j: nat)
    requires i <= |s|
    ensures i <= j <= |s|
    ensures forall k :: i <= k < j ==> IsJsWhitespace(s[k])
    ensures j == |s| || !IsJsWhitespace(s[j])
    decreases |s| - i
  {
    if i < |s| && IsJsWhitespace(s[i]) then SkipForward(s, i + 1) else i
  }

  /** The index just past the last character before `j` that is not white space, or `lo`. */
  function SkipBackward(s: string, lo: nat, j: nat): (k: nat)
    requires lo <= j <= |s|
    ensures lo <= k <= j
    ensures forall m :: k <= m < j ==> IsJsWhitespace(s[m])
    ensures k == lo || !IsJsWhitespace(s[k - 1])
  {
    if lo < j && IsJsWhitespace(s[j - 1]) then SkipBackward(s, lo, j - 1) else j
  }

  /** `s.trim()`: the middle of `s` between a white-space prefix and a white-space suffix. */
  function Trim(s: string): (r: string)
    ensures |r| <= |s|
    ensures exists i, j :: 0 <= i <= j <= |s| && r == s[i..j]
                           && (forall k :: 0 <= k < i ==> IsJsWhitespace(s[k]))
                           && (forall k :: j <= k < |s| ==> IsJsWhitespace(s[k]))
    ensures r == [] || (!IsJsWhitespace(r[0]) && !IsJsWhitespace(r[|r| - 1]))
    ensures r == [] <==> AllWhitespace(s)
    ensures NoWhitespace(s) ==> r == s
  {
    var i := SkipForward(s, 0);
    s[i..SkipBackward(s, i, |s|)]
  }

  /** A string without white space at either end is its own trim. */
  lemma TrimUnchanged(s: string)
    requires s != [] && !IsJsWhitespace(s[0]) && !IsJsWhitespace(s[|s| - 1])
    ensures Trim(s) == s
  {
    assert SkipForward(s, 0) == 0;
  }

  /** A filter that keeps no white space sees the same characters before and after trimming. */
  lemma TrimKeepsFiltered(s: string, keep: char -> bool)
    requires forall c :: IsJsWhitespace(c) ==> !keep(c)
    ensures Filter(Trim(s), keep) == Filter(s, keep)
  {
    var i := SkipForward(s, 0);
    FilterOfMiddle(s, i, SkipBackward(s, i, |s|), keep);
  }

  /** Cutting rejected characters off both ends of `s` does not change what the filter keeps. */
  lemma FilterOfMiddle(s: string, i: nat, j: nat, keep: char -> bool)
    requires i <= j <= |s|
    requires forall k :: 0 <= k < i ==> !keep(s[k])
    requires forall k :: j <= k < |s| ==> !keep(s[k])
    ensures Filter(s[i..j], keep) == Filter(s, keep)
  {
    FilterDropBack(s, j, keep);
    FilterDropFront(s[..j], i, keep);
    assert s[..j][i..] == s[i..j];
  }

  lemma {:induction false} FilterDropFront(s: string, i: nat, keep: char -> bool)
    requires i <= |s|
    requires forall k :: 0 <= k < i ==> !keep(s[k])
    ensures Filter(s[i..], keep) == Filter(s, keep)
  {
    if i > 0 {
      FilterDropFront(s[1..], i - 1, keep);
      assert s[1..][i - 1..] == s[i..];
    }
  }

  lemma {:induction false} FilterDropBack(s: string, j: nat, keep: char -> bool)
    requires j <= |s|
    requires forall k :: j <= k < |s| ==> !keep(s[k])
    ensures Filter(s[..j], keep) == Filter(s, keep)
  {
    if j < |s| {
      var init, last := s[..|s| - 1], s[|s| - 1];
      FilterDropBack(init, j, keep);
      assert init[..j] == s[..j];
      assert s == init + [last];
      FilterConcat(init, [last], keep);
      FilterSingle(last, keep);
      assert Filter(init, keep) + [] == Filter(init, keep);
    } else {
      assert s[..j] == s;
    }
  }

  /** Trimming keeps every digit, in order. */
  lemma TrimKeepsDigits(s: string)
    ensures DigitsOnly(Trim(s)) == DigitsOnly(s)
  {
    TrimKeepsFiltered(s, IsDigit);
  }

  /** Trimming keeps every digit and '+', in order. */
  lemma TrimKeepsPhoneChars(s: string)
    ensures PhoneCharsOnly(Trim(s)) == PhoneCharsOnly(s)
  {
    TrimKeepsFiltered(s, IsPhoneChar);
  }

  // ---------------------------------------------------------------------
  // Searching

  /** `s.startsWith(p)` */
  predicate StartsWith(s: string, p: string) {
    |p| <= |s| && s[..|p|] == p
  }

  predicate OccursAt(s: string, pat: string, j: int) {
    0 <= j && j + |pat| <= |s| && s[j..j + |pat|] == pat
  }

  /** The first position at or after `from` where `pat` occurs in `s`. */
  function IndexFrom(s: string, pat: string, from: nat): (r: Option<nat>)
    ensures r.Some? ==> from <= r.value && OccursAt(s, pat, r.value)
    ensures r.Some? ==> forall j :: from <= j < r.value ==> !OccursAt(s, pat, j)
    ensures r.None? ==> forall j :: from <= j ==> !OccursAt(s, pat, j)
    decreases |s| - from
  {
    if from + |pat| > |s| then None
    else if s[from..from + |pat|] == pat then Some(from)
    else IndexFrom(s, pat, from + 1)
  }

  /** `s.indexOf(pat)`, with `None` for -1. */
  function IndexOf(s: string, pat: string): Option<nat> {
    IndexFrom(s, pat, 0)
  }

  /** Python's `pat in s`. */
  predicate Contains(s: string, pat: string) {
    IndexOf(s, pat).Some?
  }

  lemma ContainsIff(s: string, pat: string)
    ensures Contains(s, pat) <==> exists j :: OccursAt(s, pat, j)
  {
  }

  /**
   * `s.replace(pat, rep)` with a string pattern: the FIRST occurrence only is
   * replaced, literally; without an occurrence `s` comes back unchanged.
   */
  function ReplaceFirst(s: string, pat: string, rep: string): (r: string)
    ensures (forall j :: !OccursAt(s, pat, j)) ==> r == s
    ensures forall i :: OccursAt(s, pat, i) && (forall j :: 0 <= j < i ==> !OccursAt(s, pat, j))
                        ==> r == s[..i] + rep + s[i + |pat|..]
  {
    match IndexOf(s, pat)
    case None => s
    case Some(i) => s[..i] + rep + s[i + |pat|..]
  }

  /** When the marked occurrence of `pat` is its first, that one is replaced and the rest is kept. */
  lemma ReplaceFirstAt(x: string, pat: string, y: string, rep: string)
    requires forall j :: 0 <= j < |x| ==> !OccursAt(x + pat + y, pat, j)
    ensures ReplaceFirst(x + pat + y, pat, rep) == x + rep + y
  {
    var s := x + pat + y;
    assert OccursAt(s, pat, |x|) by {
      assert s[|x|..|x| + |pat|] == pat;
    }
    assert s[..|x|] == x && s[|x| + |pat|..] == y;
  }

  // ---------------------------------------------------------------------
  // Case

  function LowerChar(c: char): char {
    if IsUpper(c) then (c as int + 32) as char else c
  }

  predicate IsUpper(c: char) {
    'A' <= c <= 'Z'
  }

  /**
   * `s.lower()` on the ASCII letters: no capital is left, every other
   * character is kept, and a capital becomes the same letter in lower case.
   */
  function Lower(s: string): (r: string)
    ensures |r| == |s|
    ensures forall i :: 0 <= i < |r| ==> !IsUpper(r[i])
    ensures forall i :: 0 <= i < |s| && !IsUpper(s[i]) ==> r[i] == s[i]
    ensures forall i :: 0 <= i < |s| && IsUpper(s[i]) ==> 'a' <= r[i] <= 'z' && r[i] as int - 'a' as int == s[i] as int - 'A' as int
  {
    seq(|s|, i requires 0 <= i < |s| => LowerChar(s[i]))
  }

  /** Lower-casing twice is lower-casing once. */
  lemma LowerIdempotent(s: string)
    ensures Lower(Lower(s)) == Lower(s)
  {
  }

  // ---------------------------------------------------------------------
  // Decimal rendering (Python's `str` of an integer)

  predicate AllDigits(s: string) {
    forall i :: 0 <= i < |s| ==> IsDigit(s[i])
  }

  function DigitChar(d: nat): (c: char)
    requires d < 10
    ensures IsDigit(c)
  {
    ('0' as int + d) as char
  }

  function DigitValue(c: char): (d: nat)
    requires IsDigit(c)
    ensures d < 10
  {
    c as int - '0' as int
  }

  /** The decimal digits of `n`, most significant first, without leading zeros. */
  function NatToDecimal(n: nat): (r: string)
    ensures r != [] && AllDigits(r)
    ensures r[0] == '0' ==> n == 0
  {
    if n < 10 then [DigitChar(n)] else NatToDecimal(n / 10) + [DigitChar(n % 10)]
  }

  /** The number a string of decimal digits denotes. */
  function DecimalValue(s: string): nat
    requires AllDigits(s)
  {
    if s == [] then 0 else DecimalValue(s[..|s| - 1]) * 10 + DigitValue(s[|s| - 1])
  }

  /** Reading back the rendered digits gives the number. */
  lemma {:induction false} DecimalRoundTrip(n: nat)
    ensures DecimalValue(NatToDecimal(n)) == n
  {
    if n >= 10 {
      DecimalRoundTrip(n / 10);
      var r := NatToDecimal(n);
      assert r[..|r| - 1] == NatToDecimal(n / 10);
    }
  }

  /** `str(n)`: a '-' in front of the digits of a negative number. */
  function IntToDecimal(n: int): (r: string)
    ensures r != []
    ensures n >= 0 ==> AllDigits(r)
    ensures n < 0 ==> r[0] == '-' && AllDigits(r[1..])
  {
    if n < 0 then "-" + NatToDecimal(-n) else NatToDecimal(n)
  }

  /** Distinct integers render differently. */
  lemma IntToDecimalInjective(a: int, b: int)
    ensures IntToDecimal(a) == IntToDecimal(b) <==> a == b
  {
    if IntToDecimal(a) == IntToDecimal(b) {
      if a < 0 && b < 0 {
        assert NatToDecimal(-a) == IntToDecimal(a)[1..];
        assert NatToDecimal(-b) == IntToDecimal(b)[1..];
        DecimalRoundTrip(-a);
        DecimalRoundTrip(-b);
      } else if a >= 0 && b >= 0 {
        DecimalRoundTrip(a);
        DecimalRoundTrip(b);
      }
    }
  }
}
