/**
 * The few JavaScript string operations the inventory code relies on:
 * `includes`, `startsWith`, `replace` with a string pattern, `trim`,
 * `String(n)` of a whole number and `parseInt(s, 10)` of a digit string.
 * A string is a `seq<char>` of Unicode scalar values, whereas JavaScript
 * strings are UTF-16 code units: lone surrogates cannot be written here, and
 * a character outside the Basic Multilingual Plane has length 1, not 2.
 */
module Strings {
  import opened Wrappers

  /** `pat` occurs in `s` starting at index `k`. */
  predicate OccursAt(pat: string, s: string, k: nat) {
    k + |pat| <= |s| && s[k..k + |pat|] == pat
  }

  /** The first index at or after `k` where `pat` occurs in `s`. */
  function FindFrom(s: string, pat: string, k: nat): (r: Option<nat>)
    requires k <= |s|
    ensures r.Some? ==> k <= r.value && OccursAt(pat, s, r.value)
    ensures r.Some? ==> forall j :: k <= j < r.value ==> !OccursAt(pat, s, j)
    ensures r.None? ==> forall j :: k <= j ==> !OccursAt(pat, s, j)
    decreases |s| - k
  {
    if OccursAt(pat, s, k) then Some(k)
    else if k == |s| then None
    else FindFrom(s, pat, k + 1)
  }

  /** `s.indexOf(pat)`, with `None` for -1. */
  function IndexOf(s: string, pat: string): (r: Option<nat>)
    ensures r.Some? ==> OccursAt(pat, s, r.value) && forall j :: 0 <= j < r.value ==> !OccursAt(pat, s, j)
    ensures r.None? <==> forall j :: 0 <= j ==> !OccursAt(pat, s, j)
  {
    FindFrom(s, pat, 0)
  }

  /** `s.includes(pat)`. */
  predicate Contains(s: string, pat: string) {
    IndexOf(s, pat).Some?
  }

  lemma ContainsIff(s: string, pat: string)
    ensures Contains(s, pat) <==> exists k: nat :: OccursAt(pat, s, k)
  {
  }

  /** `s.startsWith(p)`. */
  predicate StartsWith(s: string, p: string) {
    OccursAt(p, s, 0)
  }

  /** `s.replace(pat, rep)` with a string pattern: only the first occurrence is replaced. */
  function ReplaceFirst(s: string, pat: string, rep: string): (r: string)
    ensures IndexOf(s, pat).None? ==> r == s
    ensures IndexOf(s, pat).Some? ==>
      var k := IndexOf(s, pat).value;
      |r| == |s| - |pat| + |rep| && r[..k] == s[..k] && r[k..k + |rep|] == rep && r[k + |rep|..] == s[k + |pat|..]
  {
    match IndexOf(s, pat)
    case None => s
    case Some(k) => s[..k] + rep + s[k + |pat|..]
  }

  /** Replacing a prefix by nothing drops it: `("city_" + x).replace("city_", "") == x`. */
  lemma ReplacePrefix(s: string, p: string)
    requires StartsWith(s, p)
    ensures ReplaceFirst(s, p, "") == s[|p|..]
  {
    assert OccursAt(p, s, 0);
    assert FindFrom(s, p, 0) == Some(0);
    var r := s[..0] + "" + s[|p|..];
    assert r == s[|p|..];
  }

  lemma StartsWithConcat(p: string, x: string)
    ensures StartsWith(p + x, p) && (p + x)[|p|..] == x
  {
    assert (p + x)[..|p|] == p;
  }

  // ---------------------------------------------------------------------------
  // Decimal digits
  // ---------------------------------------------------------------------------

  predicate IsDigit(c: char) {
    '0' <= c <= '9'
  }

  /** The regular expression `^\d+$`: a non-empty string of ASCII digits. */
  predicate IsDigits(s: string) {
    |s| > 0 && forall i :: 0 <= i < |s| ==> IsDigit(s[i])
  }

  function DigitChar(d: nat): (c: char)
    requires d < 10
    ensures IsDigit(c) && (c as int) - ('0' as int) == d
  {
    (('0' as int) + d) as char
  }

  /** `parseInt(s, 10)` of a string of digits (leading zeros allowed). */
  function DigitsValue(s: string): (n: nat)
    requires forall i :: 0 <= i < |s| ==> IsDigit(s[i])
  {
    if s == [] then 0
    else
      assert IsDigit(s[|s| - 1]);
      DigitsValue(s[..|s| - 1]) * 10 + ((s[|s| - 1] as int) - ('0' as int))
  }

  /** `String(n)` of a non-negative whole number: its shortest decimal spelling. */
  function NatToString(n: nat): (s: string)
    ensures |s| > 0
    decreases n
  {
    if n < 10 then [DigitChar(n)] else NatToString(n / 10) + [DigitChar(n % 10)]
  }

  /** `String(i)` of a whole number. */
  function IntToString(i: int): (s: string)
    ensures i < 0 ==> |s| > 0 && s[0] == '-'
    ensures 0 <= i ==> s == NatToString(i)
  {
    if i < 0 then "-" + NatToString(-i) else NatToString(i)
  }

  /** `parseInt(String(n), 10) == n`, and `String(n)` matches `^\d+$`. */
  lemma {:induction false} NatToStringRoundTrip(n: nat)
    ensures IsDigits(NatToString(n)) && DigitsValue(NatToString(n)) == n
    decreases n
  {
    var s := NatToString(n);
    if n >= 10 {
      NatToStringRoundTrip(n / 10);
      var t := NatToString(n / 10);
      assert s == t + [DigitChar(n % 10)];
      assert s[..|s| - 1] == t;
    }
  }

  /** A negative whole number never spells as digits only. */
  lemma NegativeNotDigits(i: int)
    requires i < 0
    ensures !IsDigits(IntToString(i))
  {
    assert !IsDigit(IntToString(i)[0]);
  }

  // ---------------------------------------------------------------------------
  // trim()
  // ---------------------------------------------------------------------------

  /** The characters `String.prototype.trim` removes: white space and line terminators. */
  predicate IsJsWhitespace(c: char) {
    c == '\t' || c == '\n' || c == '\U{000B}' || c == '\U{000C}' || c == '\r' || c == ' '
    || c == '\U{00A0}' || c == '\U{1680}' || ('\U{2000}' <= c <= '\U{200A}')
    || c == '\U{2028}' || c == '\U{2029}' || c == '\U{202F}' || c == '\U{205F}'
    || c == '\U{3000}' || c == '\U{FEFF}'
  }

  predicate AllWhitespace(s: string) {
    forall i :: 0 <= i < |s| ==> IsJsWhitespace(s[i])
  }

  /** How many white-space characters `s` starts with. */
  function LeadingBlanks(s: string): (n: nat)
    ensures n <= |s| && AllWhitespace(s[..n])
    ensures n == |s| || !IsJsWhitespace(s[n])
  {
    if s != [] && IsJsWhitespace(s[0]) then
      var n := 1 + LeadingBlanks(s[1..]);
      assert forall i :: 1 <= i < n ==> s[..n][i] == s[1..][..n - 1][i - 1];
      n
    else 0
  }

  /** How many white-space characters `s` ends with. */
  function TrailingBlanks(s: string): (n: nat)
    ensures n <= |s| && AllWhitespace(s[|s| - n..])
    ensures n == |s| || !IsJsWhitespace(s[|s| - n - 1])
  {
    if s != [] && IsJsWhitespace(s[|s| - 1]) then
      var m := |s| - 1;
      var n := 1 + TrailingBlanks(s[..m]);
      assert s[|s| - n..] == s[..m][m - (n - 1)..] + [s[m]];
      n
    else 0
  }

  /**
   * `s.trim()`: the slice of `s` left after dropping white space at both ends.
   */
  function Trim(s: string): (r: string)
    ensures exists a, b :: 0 <= a <= b <= |s| && r == s[a..b] && AllWhitespace(s[..a]) && AllWhitespace(s[b..])
    ensures r == [] || (!IsJsWhitespace(r[0]) && !IsJsWhitespace(r[|r| - 1]))
  {
    var a := LeadingBlanks(s);
    var t := s[a..];
    var b := |s| - TrailingBlanks(t);
    assert t[..b - a] == s[a..b];
    assert t[|t| - TrailingBlanks(t)..] == s[b..];
    assert b < |s| ==> s[b] == t[b - a];
    s[a..b]
  }

  /** A string trims to nothing exactly when it is all white space. */
  lemma TrimEmptyIffBlank(s: string)
    ensures Trim(s) == [] <==> AllWhitespace(s)
  {
    var a := LeadingBlanks(s);
    if !AllWhitespace(s) {
      var i :| 0 <= i < |s| && !IsJsWhitespace(s[i]);
      var t := s[a..];
      assert t[i - a] == s[i];
    }
  }
}
