/**
 * The JavaScript string operations the validators rely on, over Dafny
 * strings: `includes`, `startsWith`, `join`, `trim`, ASCII case folding,
 * decimal rendering of integers and counting of non-overlapping matches
 * (what `String.prototype.match` with a global regular expression returns).
 */
module Strings {

  /** `pat` occurs in `s` starting at index `i`. */
  predicate OccursAt(s: string, pat: string, i: int) {
    0 <= i && i + |pat| <= |s| && s[i..i + |pat|] == pat
  }

  /** `s.includes(pat)` */
  predicate Contains(s: string, pat: string) {
    exists i | 0 <= i <= |s| - |pat| :: OccursAt(s, pat, i)
  }

  /** `words.some(w => text.includes(w))` */
  predicate ContainsAny(text: string, words: seq<string>) {
    words != [] && (Contains(text, words[0]) || ContainsAny(text, words[1..]))
  }

  /** `s.startsWith(p)` */
  predicate StartsWith(s: string, p: string) {
    |p| <= |s| && s[..|p|] == p
  }

  lemma ContainsAt(s: string, pat: string, i: int)
    requires OccursAt(s, pat, i)
    ensures Contains(s, pat)
  {
  }

  lemma ContainsGrows(a: string, s: string, b: string, pat: string)
    requires Contains(s, pat)
    ensures Contains(a + s + b, pat)
  {
    var i :| 0 <= i <= |s| - |pat| && OccursAt(s, pat, i);
    assert (a + s + b)[|a| + i..|a| + i + |pat|] == s[i..i + |pat|];
    ContainsAt(a + s + b, pat, |a| + i);
  }

  /** A pattern occurs in a slice exactly where it occurs, shifted, in the whole. */
  lemma OccursInSlice(s: string, n: nat, e: nat, pat: string, k: nat)
    requires n <= e <= |s| && k + |pat| <= e - n
    ensures OccursAt(s[n..e], pat, k) <==> OccursAt(s, pat, n + k)
  {
    var inner, outer := s[n..e][k..k + |pat|], s[n + k..n + k + |pat|];
    assert forall j | 0 <= j < |pat| :: inner[j] == outer[j];
    assert inner == outer;
  }

  /** `parts.join(sep)` */
  function Join(parts: seq<string>, sep: string): (r: string)
    ensures parts == [] ==> r == ""
    ensures |parts| == 1 ==> r == parts[0]
  {
    if parts == [] then ""
    else if |parts| == 1 then parts[0]
    else parts[0] + sep + Join(parts[1..], sep)
  }

  predicate IsDigit(c: char) {
    '0' <= c <= '9'
  }

  function DigitChar(d: nat): (c: char)
    requires d < 10
    ensures IsDigit(c)
  {
    "0123456789"[d]
  }

  /** The decimal rendering of a natural number, as `${n}` produces it. */
  function NatToString(n: nat): (r: string)
    ensures |r| >= 1
    ensures forall k | 0 <= k < |r| :: IsDigit(r[k])
  {
    if n < 10 then [DigitChar(n)] else NatToString(n / 10) + [DigitChar(n % 10)]
  }

  /** The decimal rendering of an integer, with a leading '-' when negative. */
  function IntToString(n: int): string {
    if n < 0 then "-" + NatToString(-n) else NatToString(n)
  }

  /** ASCII case folding of one character. */
  function LowerChar(c: char): char {
    if 'A' <= c <= 'Z' then (c as int + 32) as char else c
  }

  /**
   * Case folding of A-Z only.  For the keyword tests of this project it gives
   * the same verdicts as `toLowerCase()` and as a case-insensitive regular
   * expression: the only characters outside A-Z that fold onto an ASCII
   * letter are U+0130 (to "i" followed by U+0307) and U+212A (to "k"), and no
   * keyword contains a "k" or ends in an "i".
   */
  function AsciiLower(s: string): (r: string)
    ensures |r| == |s|
    ensures forall i | 0 <= i < |s| :: r[i] == LowerChar(s[i])
  {
    seq(|s|, i requires 0 <= i < |s| => LowerChar(s[i]))
  }

  /** ECMAScript LineTerminator: what `^` matches after in multiline mode. */
  predicate IsLineTerminator(c: char) {
    c == '\n' || c == '\r' || c as int == 0x2028 || c as int == 0x2029
  }

  /**
   * ECMAScript WhiteSpace or LineTerminator: the class `\s` of a regular
   * expression and the characters `trim()` removes.
   */
  predicate IsJsSpace(c: char) {
    var n := c as int;
    n == 0x09 || n == 0x0B || n == 0x0C || n == 0x20 || n == 0xA0 || n == 0x1680
    || (0x2000 <= n <= 0x200A) || n == 0x202F || n == 0x205F || n == 0x3000 || n == 0xFEFF
    || IsLineTerminator(c)
  }

  function TrimStart(s: string): (r: string)
    ensures |r| <= |s| && r == s[|s| - |r|..]
    ensures r == [] || !IsJsSpace(r[0])
    ensures forall k | 0 <= k < |s| - |r| :: IsJsSpace(s[k])
  {
    if s != [] && IsJsSpace(s[0]) then TrimStart(s[1..]) else s
  }

  function TrimEnd(s: string): (r: string)
    ensures |r| <= |s| && r == s[..|r|]
    ensures r == [] || !IsJsSpace(r[|r| - 1])
    ensures forall k | |r| <= k < |s| :: IsJsSpace(s[k])
  {
    if s != [] && IsJsSpace(s[|s| - 1]) then TrimEnd(s[..|s| - 1]) else s
  }

  /** `s.trim()`: no white space is left at either end, and only white space was removed. */
  function Trim(s: string): (r: string)
    ensures |r| <= |s|
    ensures r == [] || (!IsJsSpace(r[0]) && !IsJsSpace(r[|r| - 1]))
    ensures Contains(s, r)
  {
    var t := TrimStart(s);
    var r := TrimEnd(t);
    PrefixOfSuffix(s, t, r);
    r
  }

  lemma PrefixOfSuffix(s: string, t: string, r: string)
    requires |r| <= |t| <= |s| && t == s[|s| - |t|..] && r == t[..|r|]
    ensures OccursAt(s, r, |s| - |t|)
  {
    var i := |s| - |t|;
    assert s[i..i + |r|] == s[i..][..|r|];
  }

  /**
   * JavaScript's `s.length`: the number of UTF-16 code units, two for each
   * character outside the Basic Multilingual Plane.
   */
  function Utf16Length(s: string): (n: nat)
    ensures |s| <= n <= 2 * |s|
    decreases |s|
  {
    if s == [] then 0 else Utf16Length(s[..|s| - 1]) + (if (s[|s| - 1] as int) < 0x1_0000 then 1 else 2)
  }

  /** The code-unit length equals the character count exactly when every character is in the Basic Multilingual Plane. */
  lemma {:induction false} Utf16LengthBmp(s: string)
    ensures Utf16Length(s) == |s| <==> forall k | 0 <= k < |s| :: (s[k] as int) < 0x1_0000
    decreases |s|
  {
    if s != [] {
      var init := s[..|s| - 1];
      assert forall k | 0 <= k < |init| :: init[k] == s[k];
      Utf16LengthBmp(init);
    }
  }

  /**
   * The number of non-overlapping occurrences of `pat` found by scanning `s`
   * from the left, as the length of `s.match(/pat/g)` (0 where it is null).
   */
  function CountMatches(s: string, pat: string): (n: nat)
    requires pat != []
    ensures n * |pat| <= |s|
    decreases |s|
  {
    if |s| < |pat| then 0
    else if s[..|pat|] == pat then 1 + CountMatches(s[|pat|..], pat)
    else CountMatches(s[1..], pat)
  }

  /** A global match finds something exactly when the pattern occurs at all. */
  lemma {:induction false} CountMatchesPositive(s: string, pat: string)
    requires pat != []
    ensures CountMatches(s, pat) > 0 <==> Contains(s, pat)
    decreases |s|
  {
    if |s| < |pat| {
    } else if s[..|pat|] == pat {
      assert OccursAt(s, pat, 0);
    } else {
      CountMatchesPositive(s[1..], pat);
      if Contains(s[1..], pat) {
        ContainsGrows(s[..1], s[1..], [], pat);
        assert s[..1] + s[1..] + [] == s;
      }
      if Contains(s, pat) {
        var i :| 0 <= i <= |s| - |pat| && OccursAt(s, pat, i);
        assert i != 0;
        assert s[1..][i - 1..i - 1 + |pat|] == s[i..i + |pat|];
        assert OccursAt(s[1..], pat, i - 1);
      }
    }
  }
}
