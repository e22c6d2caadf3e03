/**
 * The JavaScript string operations the core relies on: `toLowerCase`,
 * `toUpperCase`, `trim`, `includes`, `replace` with a one-character pattern
 * and the decimal rendering of integers inside template literals.
 * Case mapping covers the ASCII letters only.
 */
module Text {

  predicate IsUpperLetter(c: char) { 'A' <= c <= 'Z' }
  predicate IsLowerLetter(c: char) { 'a' <= c <= 'z' }

  function LowerChar(c: char): (d: char)
    ensures !IsUpperLetter(d)
    ensures IsUpperLetter(c) || d == c
  {
    if IsUpperLetter(c) then (c as int - 'A' as int + 'a' as int) as char else c
  }

  function UpperChar(c: char): (d: char)
    ensures !IsLowerLetter(d)
    ensures IsLowerLetter(c) || d == c
  {
    if IsLowerLetter(c) then (c as int - 'a' as int + 'A' as int) as char else c
  }

  /** `s.toLowerCase()` */
  function Lower(s: string): (r: string)
    ensures |r| == |s|
    ensures forall i | 0 <= i < |s| :: r[i] == LowerChar(s[i])
  {
    seq(|s|, i requires 0 <= i < |s| => LowerChar(s[i]))
  }

  /** `s.toUpperCase()` */
  function Upper(s: string): (r: string)
    ensures |r| == |s|
    ensures forall i | 0 <= i < |s| :: r[i] == UpperChar(s[i])
  {
    seq(|s|, i requires 0 <= i < |s| => UpperChar(s[i]))
  }

  /** Lower-casing forgets the case a string was written in. */
  lemma LowerOfUpper(s: string)
    ensures Lower(Upper(s)) == Lower(s)
  {
    forall i | 0 <= i < |s|
      ensures Lower(Upper(s))[i] == Lower(s)[i]
    {
      var c := s[i];
      if IsLowerLetter(c) {
        assert LowerChar(UpperChar(c)) == c;
      }
    }
  }

  lemma LowerIdempotent(s: string)
    ensures Lower(Lower(s)) == Lower(s)
  {
  }

  /** The characters `String.prototype.trim` removes: ECMAScript WhiteSpace and LineTerminator. */
  predicate IsWhitespace(c: char) {
    c == '\t' || c == '\n' || c == '\U{000B}' || c == '\U{000C}' || c == '\r' || c == ' '
    || c == '\U{00A0}' || c == '\U{1680}' || ('\U{2000}' <= c <= '\U{200A}')
    || c == '\U{2028}' || c == '\U{2029}' || c == '\U{202F}' || c == '\U{205F}'
    || c == '\U{3000}' || c == '\U{FEFF}'
  }

  /** The number of whitespace characters `s` starts with. */
  function LeadingBlanks(s: string): (k: nat)
    ensures k <= |s|
    ensures forall i | 0 <= i < k :: IsWhitespace(s[i])
    ensures k == |s| || !IsWhitespace(s[k])
  {
    if s != [] && IsWhitespace(s[0]) then
      var k := 1 + LeadingBlanks(s[1..]);
      assert forall i | 1 <= i < k :: s[i] == s[1..][i - 1];
      k
    else 0
  }

  /** The end of the content of `s[lo..hi]`: every character from there up to `hi` is whitespace. */
  function ContentEnd(s: string, lo: nat, hi: nat): (k: nat)
    requires lo <= hi <= |s|
    ensures lo <= k <= hi
    ensures forall i | k <= i < hi :: IsWhitespace(s[i])
    ensures k == lo || !IsWhitespace(s[k - 1])
    decreases hi
  {
    if lo < hi && IsWhitespace(s[hi - 1]) then ContentEnd(s, lo, hi - 1) else hi
  }

  /**
   * `s.trim()`: the infix left after removing every leading and every
   * trailing whitespace character.
   */
  function Trim(s: string): (r: string)
    ensures |r| <= |s|
    ensures var a := LeadingBlanks(s);
      && a + |r| <= |s|
      && r == s[a..a + |r|]
      && (forall i | 0 <= i < a :: IsWhitespace(s[i]))
      && (forall i | a + |r| <= i < |s| :: IsWhitespace(s[i]))
    ensures r == [] || (!IsWhitespace(r[0]) && !IsWhitespace(r[|r| - 1]))
  {
    var a := LeadingBlanks(s);
    s[a..ContentEnd(s, a, |s|)]
  }

  /** Trimming only removes whitespace, so a string that is all whitespace trims to "". */
  lemma TrimBlank(s: string)
    ensures Trim(s) == [] <==> forall i | 0 <= i < |s| :: IsWhitespace(s[i])
  {
    var a := LeadingBlanks(s);
    if Trim(s) != [] {
      assert s[a] == Trim(s)[0] && !IsWhitespace(s[a]);
    }
  }

  /** `hay.includes(needle)` */
  predicate Contains(hay: string, needle: string) {
    exists i | 0 <= i <= |hay| - |needle| :: OccursAt(hay, needle, i)
  }

  predicate OccursAt(hay: string, needle: string, i: int) {
    0 <= i <= |hay| - |needle| && hay[i..i + |needle|] == needle
  }

  /** Index of the first occurrence of `c`, or |s| when there is none. */
  function FirstIndexOf(s: string, c: char): (k: nat)
    ensures k <= |s|
    ensures forall i | 0 <= i < k :: s[i] != c
    ensures k < |s| ==> s[k] == c
  {
    if s == [] then 0
    else if s[0] == c then 0
    else 1 + FirstIndexOf(s[1..], c)
  }

  /**
   * `s.replace(from, to)` with a one-character string pattern: only the
   * first occurrence is replaced.
   */
  function ReplaceFirst(s: string, from: char, to: char): (r: string)
    ensures |r| == |s|
    ensures forall i | 0 <= i < |s| && i != FirstIndexOf(s, from) :: r[i] == s[i]
    ensures FirstIndexOf(s, from) < |s| ==> r[FirstIndexOf(s, from)] == to
  {
    if s == [] then []
    else if s[0] == from then [to] + s[1..]
    else [s[0]] + ReplaceFirst(s[1..], from, to)
  }

  function DigitChar(d: nat): char
    requires d < 10
  {
    ('0' as int + d) as char
  }

  function DigitValue(c: char): int {
    c as int - '0' as int
  }

  predicate IsDigit(c: char) { '0' <= c <= '9' }

  /** The number a string of decimal digits denotes. */
  function DigitsValue(s: string): int {
    if s == [] then 0 else 10 * DigitsValue(s[..|s| - 1]) + DigitValue(s[|s| - 1])
  }

  /** How a template literal renders a non-negative integer: decimal, no leading zeros. */
  function NatToString(n: nat): (r: string)
    ensures 0 < |r|
    ensures forall i | 0 <= i < |r| :: IsDigit(r[i])
    ensures |r| > 1 ==> r[0] != '0'
  {
    if n < 10 then [DigitChar(n)] else NatToString(n / 10) + [DigitChar(n % 10)]
  }

  /** Rendering is injective: the digits read back as the number. */
  lemma {:induction false} NatToStringRoundTrip(n: nat)
    ensures DigitsValue(NatToString(n)) == n
  {
    if n >= 10 {
      var r := NatToString(n);
      assert r[..|r| - 1] == NatToString(n / 10);
      NatToStringRoundTrip(n / 10);
    }
  }

  /** How a template literal renders an integer: a minus sign, then the digits. */
  function IntToString(n: int): (r: string)
    ensures n >= 0 ==> r == NatToString(n)
    ensures n < 0 ==> r == "-" + NatToString(-n)
  {
    if n < 0 then "-" + NatToString(-n) else NatToString(n)
  }
}
