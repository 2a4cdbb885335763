/**
 * The .NET string operations the core relies on: `char.IsWhiteSpace`, `Trim`,
 * `IsNullOrEmpty`, `IsNullOrWhiteSpace`, ordinal substring search, ASCII case
 * folding (standing in for `ToLowerInvariant` and `OrdinalIgnoreCase`) and the
 * decimal rendering of an `int`.
 */
module Text {
  import opened Wrappers

  /** `char.IsWhiteSpace`: the Unicode space, line and paragraph separators, U+0009..U+000D and U+0085. */
  predicate IsWhiteSpace(c: char): (b: bool)
    ensures c < '\U{80}' ==> (b <==> c in {' ', '\t', '\n', '\U{B}', '\U{C}', '\r'})
  {
    || c == ' ' || ('\t' <= c <= '\r') || c == '\U{85}' || c == '\U{A0}' || c == '\U{1680}'
    || ('\U{2000}' <= c <= '\U{200A}') || c == '\U{2028}' || c == '\U{2029}'
    || c == '\U{202F}' || c == '\U{205F}' || c == '\U{3000}'
  }

  /** Every character of `s` is white space (true of the empty string). */
  predicate IsBlank(s: string) {
    forall i :: 0 <= i < |s| ==> IsWhiteSpace(s[i])
  }

  /** `string.IsNullOrEmpty`. */
  predicate IsNullOrEmpty(s: Option<string>) {
    s.None? || s.value == ""
  }

  /** `string.IsNullOrWhiteSpace`. */
  predicate IsNullOrWhiteSpace(s: Option<string>) {
    s.None? || IsBlank(s.value)
  }

  /** Neither end of `s` is white space. */
  predicate IsTrimmed(s: string) {
    s == [] || (!IsWhiteSpace(s[0]) && !IsWhiteSpace(s[|s| - 1]))
  }

  /** The length of the white-space run at the start of `s`. */
  function LeadingWhiteSpace(s: string): (n: nat)
    ensures n <= |s|
    ensures forall i :: 0 <= i < n ==> IsWhiteSpace(s[i])
    ensures n < |s| ==> !IsWhiteSpace(s[n])
  {
    if s != [] && IsWhiteSpace(s[0]) then 1 + LeadingWhiteSpace(s[1..]) else 0
  }

  /** The length of the white-space run at the end of `s`. */
  function TrailingWhiteSpace(s: string): (n: nat)
    ensures n <= |s|
    ensures forall i :: |s| - n <= i < |s| ==> IsWhiteSpace(s[i])
    ensures n < |s| ==> !IsWhiteSpace(s[|s| - 1 - n])
  {
    if s != [] && IsWhiteSpace(s[|s| - 1]) then 1 + TrailingWhiteSpace(s[..|s| - 1]) else 0
  }

  /**
   * `string.Trim()`: the contiguous middle of `s` that starts and ends with a
   * non-white-space character; everything cut off is white space.
   */
  function Trim(s: string): (r: string)
    ensures IsTrimmed(r)
    ensures |r| <= |s| && LeadingWhiteSpace(s) + |r| <= |s|
    ensures r == s[LeadingWhiteSpace(s)..LeadingWhiteSpace(s) + |r|]
    ensures forall i :: 0 <= i < LeadingWhiteSpace(s) ==> IsWhiteSpace(s[i])
    ensures forall i :: LeadingWhiteSpace(s) + |r| <= i < |s| ==> IsWhiteSpace(s[i])
  {
    var a := LeadingWhiteSpace(s);
    if a == |s| then "" else s[a..|s| - TrailingWhiteSpace(s)]
  }

  /**
   * `IsNullOrWhiteSpace` holds for null and for exactly the strings that
   * trimming empties; it accepts every null or empty string, and more.
   */
  lemma NullOrWhiteSpaceIffTrimsToEmpty(s: Option<string>)
    ensures IsNullOrWhiteSpace(s) <==> s.None? || Trim(s.value) == ""
    ensures IsNullOrEmpty(s) ==> IsNullOrWhiteSpace(s)
    ensures IsNullOrWhiteSpace(Some(" ")) && !IsNullOrEmpty(Some(" "))
  {
  }

  /** Trimming a string that has no white space at either end changes nothing. */
  lemma TrimOfTrimmed(s: string)
    requires IsTrimmed(s)
    ensures Trim(s) == s
  {
  }

  /** White space around a trimmed core is exactly what `Trim` removes. */
  lemma {:induction false} TrimAround(pre: string, s: string, post: string)
    requires IsBlank(pre) && IsBlank(post) && IsTrimmed(s)
    ensures Trim(pre + s + post) == s
  {
    var t := pre + s + post;
    if s == [] {
      assert IsBlank(t);
    } else {
      LeadingAround(pre, s, post);
      TrailingAround(pre, s, post);
      assert t[|pre|..|t| - |post|] == s;
    }
  }

  lemma {:induction false} LeadingAround(pre: string, s: string, post: string)
    requires IsBlank(pre) && IsBlank(post) && IsTrimmed(s)
    ensures s != [] ==> LeadingWhiteSpace(pre + s + post) == |pre|
  {
    if s != [] {
      var t := pre + s + post;
      var a := LeadingWhiteSpace(t);
      assert t[|pre|] == s[0];
      assert forall i :: 0 <= i < |pre| ==> t[i] == pre[i];
    }
  }

  lemma {:induction false} TrailingAround(pre: string, s: string, post: string)
    requires IsBlank(pre) && IsBlank(post) && IsTrimmed(s)
    ensures s != [] ==> TrailingWhiteSpace(pre + s + post) == |post|
  {
    if s != [] {
      var t := pre + s + post;
      var n := TrailingWhiteSpace(t);
      assert t[|t| - 1 - |post|] == s[|s| - 1];
      assert forall i :: |t| - |post| <= i < |t| ==> t[i] == post[i - (|t| - |post|)];
    }
  }

  // ---------------------------------------------------------------------------
  // Ordinal substring search

  /** `pat` occurs in `s` starting at index `i`. */
  predicate OccursAt(s: string, pat: string, i: nat) {
    i + |pat| <= |s| && s[i..i + |pat|] == pat
  }

  /** `s.Contains(pat)` with ordinal comparison. */
  predicate Contains(s: string, pat: string) {
    exists i: nat :: i <= |s| && OccursAt(s, pat, i)
  }

  /** `i` is where `pat` occurs in `s` for the first time. */
  predicate FirstOccurrence(s: string, pat: string, i: nat) {
    OccursAt(s, pat, i) && forall j: nat :: j < i ==> !OccursAt(s, pat, j)
  }

  /** The first index at or after `from` where `pat` occurs in `s`. */
  function IndexOfFrom(s: string, pat: string, from: nat): (r: Option<nat>)
    requires from <= |s|
    ensures r.Some? ==> from <= r.value && OccursAt(s, pat, r.value)
    ensures r.Some? ==> forall j: nat :: from <= j < r.value ==> !OccursAt(s, pat, j)
    ensures r.None? ==> forall j: nat :: from <= j ==> !OccursAt(s, pat, j)
    decreases |s| - from
  {
    if OccursAt(s, pat, from) then Some(from)
    else if from == |s| then None
    else IndexOfFrom(s, pat, from + 1)
  }

  /** `s.IndexOf(pat, StringComparison.Ordinal)`, with `None` for -1. */
  function IndexOf(s: string, pat: string): (r: Option<nat>)
    ensures r.Some? <==> Contains(s, pat)
    ensures r.Some? ==> FirstOccurrence(s, pat, r.value)
  {
    IndexOfFrom(s, pat, 0)
  }

  /** An occurrence inside a slice of `s` is an occurrence in `s`, shifted by the slice's start. */
  lemma OccursInSlice(s: string, pat: string, lo: nat, hi: nat, j: nat)
    requires lo <= hi <= |s|
    requires OccursAt(s[lo..hi], pat, j)
    ensures OccursAt(s, pat, lo + j)
  {
    assert forall k :: 0 <= k < |pat| ==> s[lo + j + k] == s[lo..hi][j + k] == pat[k];
    assert s[lo + j..lo + j + |pat|] == pat;
  }

  /** Both inner parts of a five-part concatenation occur in it. */
  lemma ContainsBoth(a: string, p: string, b: string, q: string, c: string)
    ensures Contains(a + p + b + q + c, p) && Contains(a + p + b + q + c, q)
  {
    var s := a + p + b + q + c;
    assert s[|a|..|a| + |p|] == p;
    assert OccursAt(s, p, |a|);
    assert s[|a| + |p| + |b|..|a| + |p| + |b| + |q|] == q;
    assert OccursAt(s, q, |a| + |p| + |b|);
  }

  /** Before its first occurrence, `pat` does not occur in `s`. */
  lemma PrefixBeforeFirstOccurrence(s: string, pat: string, k: nat)
    requires pat != [] && FirstOccurrence(s, pat, k)
    ensures !Contains(s[..k], pat)
  {
    if Contains(s[..k], pat) {
      var j: nat :| j <= k && OccursAt(s[..k], pat, j);
      assert s[..k] == s[0..k];
      OccursInSlice(s, pat, 0, k, j);
    }
  }

  /** Text appended after `t` cannot complete an occurrence that lies wholly inside `t`. */
  lemma AbsentFromPrefix(t: string, u: string, pat: string, j: nat)
    requires !Contains(t, pat) && j + |pat| <= |t|
    ensures !OccursAt(t + u, pat, j)
  {
    assert !OccursAt(t, pat, j);
    assert (t + u)[j..j + |pat|] == t[j..j + |pat|];
  }

  /** Trimming cannot create an occurrence. */
  lemma TrimKeepsAbsence(s: string, pat: string)
    requires !Contains(s, pat)
    ensures !Contains(Trim(s), pat)
  {
    var t := Trim(s);
    if Contains(t, pat) {
      var j: nat :| j <= |t| && OccursAt(t, pat, j);
      var a := LeadingWhiteSpace(s);
      OccursInSlice(s, pat, a, a + |t|, j);
    }
  }

  // ---------------------------------------------------------------------------
  // ASCII case folding

  /** Lower-cases the ASCII letters A-Z and leaves every other character alone. */
  function AsciiLower(c: char): char {
    if 'A' <= c <= 'Z' then (c as int + 32) as char else c
  }

  /** Lower-cases every character of `s`. */
  function ToLowerAscii(s: string): (r: string)
    ensures |r| == |s| && forall i :: 0 <= i < |s| ==> r[i] == AsciiLower(s[i])
  {
    seq(|s|, i requires 0 <= i < |s| => AsciiLower(s[i]))
  }

  /**
   * Case-insensitive equality, folding ASCII letters only: the strings have
   * the same length and agree character by character once folded.
   */
  predicate EqualsIgnoreCase(a: string, b: string): (r: bool)
    ensures r <==> |a| == |b| && forall i :: 0 <= i < |a| ==> AsciiLower(a[i]) == AsciiLower(b[i])
  {
    ToLowerAscii(a) == ToLowerAscii(b)
  }

  // ---------------------------------------------------------------------------
  // Decimal rendering of integers

  /** The 32-bit signed integer of C#. */
  newtype int32 = x: int | -0x8000_0000 <= x < 0x8000_0000

  predicate IsDigit(c: char) {
    '0' <= c <= '9'
  }

  function DigitChar(d: nat): (c: char)
    requires d < 10
    ensures IsDigit(c)
  {
    (d + '0' as int) as char
  }

  /** The decimal digits of `n`, most significant first, with no leading zero. */
  function NatToString(n: nat): (r: string)
    ensures r != [] && forall i :: 0 <= i < |r| ==> IsDigit(r[i])
    ensures r[0] == '0' ==> n == 0 && r == "0"
  {
    if n < 10 then [DigitChar(n)] else NatToString(n / 10) + [DigitChar(n % 10)]
  }

  /**
   * The decimal rendering of an `int`, as string interpolation gives it in a
   * culture whose negative sign is `-`: an optional minus sign, then the
   * digits, with no leading zero.
   */
  function IntToString(n: int32): (r: string)
    ensures r != []
    ensures (r[0] == '-') <==> n < 0
    ensures n < 0 ==> |r| > 1 && r[1] != '0'
    ensures r[0] == '0' ==> r == "0"
  {
    if n < 0 then "-" + NatToString(-(n as int)) else NatToString(n as int)
  }

  /** The value of a string of decimal digits. */
  function DigitsValue(s: string): nat
    requires forall i :: 0 <= i < |s| ==> IsDigit(s[i])
  {
    if s == [] then 0
    else
      var last := s[|s| - 1];
      assert IsDigit(last);
      10 * DigitsValue(s[..|s| - 1]) + (last as int - '0' as int)
  }

  /** Reads back a rendering produced by `IntToString`. */
  function ParseInt(s: string): int
    requires s != []
    requires forall i :: 0 < i < |s| ==> IsDigit(s[i])
    requires s[0] == '-' || IsDigit(s[0])
  {
    if s[0] == '-' then -(DigitsValue(s[1..]) as int) else DigitsValue(s)
  }

  lemma {:induction false} NatToStringRoundTrip(n: nat)
    ensures DigitsValue(NatToString(n)) == n
  {
    if n >= 10 {
      NatToStringRoundTrip(n / 10);
      var s := NatToString(n);
      assert s[..|s| - 1] == NatToString(n / 10);
    }
  }

  /** Rendering an integer and reading it back gives the same integer, negative ones included. */
  lemma IntToStringRoundTrip(n: int32)
    ensures var s := IntToString(n);
      && (forall i :: 0 < i < |s| ==> IsDigit(s[i]))
      && (s[0] == '-' || IsDigit(s[0]))
      && ParseInt(s) == n as int
  {
    if n < 0 {
      NatToStringRoundTrip(-(n as int));
      assert IntToString(n)[1..] == NatToString(-(n as int));
    } else {
      NatToStringRoundTrip(n as int);
    }
  }
}
