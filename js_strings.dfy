/**
 * The ECMAScript string built-ins the editor relies on (ECMA-262): the character class
 * that `\s` matches and `trim` removes, `lastIndexOf` and `indexOf` for one character,
 * `substring`, `startsWith`/`endsWith`, and the decimal conversions done by `parseInt`
 * on a run of digits and by turning a non-negative integer into a string.
 * Strings are sequences of characters; JavaScript counts UTF-16 code units instead.
 */
module JsStrings {

  /** ECMAScript WhiteSpace or LineTerminator: the characters `\s` matches and `trim` removes. */
  predicate IsSpace(c: char) {
    || c == '\t' || c == '\n' || c == '\U{000B}' || c == '\U{000C}' || c == '\r' || c == ' '
    || c == '\U{00A0}' || c == '\U{1680}' || ('\U{2000}' <= c <= '\U{200A}')
    || c == '\U{2028}' || c == '\U{2029}' || c == '\U{202F}' || c == '\U{205F}'
    || c == '\U{3000}' || c == '\U{FEFF}'
  }

  predicate AllSpace(s: string) {
    forall i :: 0 <= i < |s| ==> IsSpace(s[i])
  }

  /** No occurrence of `c` in `s`. */
  predicate Lacks(s: string, c: char) {
    forall i :: 0 <= i < |s| ==> s[i] != c
  }

  predicate StartsWith(s: string, prefix: string) {
    |prefix| <= |s| && s[..|prefix|] == prefix
  }

  predicate EndsWith(s: string, suffix: string) {
    |suffix| <= |s| && s[|s| - |suffix|..] == suffix
  }

  /** `x` clamped into `[0, hi]`, as ECMAScript clamps a position argument. */
  function Clamp(x: int, hi: nat): (r: nat)
    ensures r <= hi
    ensures 0 <= x <= hi ==> r == x
  {
    if x < 0 then 0 else if x > hi then hi else x
  }

  /** Number of white-space characters at the start of `s`. */
  function LeadingSpace(s: string): (n: nat)
    ensures n <= |s|
    ensures forall i :: 0 <= i < n ==> IsSpace(s[i])
    ensures n < |s| ==> !IsSpace(s[n])
  {
    if |s| > 0 && IsSpace(s[0]) then 1 + LeadingSpace(s[1..]) else 0
  }

  /** Number of white-space characters at the end of `s`. */
  function TrailingSpace(s: string): (n: nat)
    ensures n <= |s|
    ensures forall i :: |s| - n <= i < |s| ==> IsSpace(s[i])
    ensures n < |s| ==> !IsSpace(s[|s| - n - 1])
  {
    if |s| > 0 && IsSpace(s[|s| - 1]) then 1 + TrailingSpace(s[..|s| - 1]) else 0
  }

  /** `s` is `r` with white space (possibly none) on both sides. */
  ghost predicate Padded(s: string, r: string) {
    exists i :: 0 <= i <= |s| - |r| && s[i..i + |r|] == r && AllSpace(s[..i]) && AllSpace(s[i + |r|..])
  }

  /** `String.prototype.trim`. */
  function Trim(s: string): (r: string)
    ensures r == [] <==> AllSpace(s)
    ensures r != [] ==> !IsSpace(r[0]) && !IsSpace(r[|r| - 1])
    ensures Padded(s, r)
  {
    var a := LeadingSpace(s);
    if a == |s| then
      assert s[..a] == s && s[a..a] == [] && s[a..] == [];
      []
    else
      var b := TrailingSpace(s);
      var r := s[a..|s| - b];
      assert s[a..a + |r|] == r && s[a + |r|..] == s[|s| - b..];
      r
  }

  /** Trim removes exactly the white space around a word whose ends are not white space. */
  lemma TrimPadded(p: string, x: string, q: string)
    requires AllSpace(p) && AllSpace(q)
    requires x != [] && !IsSpace(x[0]) && !IsSpace(x[|x| - 1])
    ensures Trim(p + x + q) == x
  {
    var s := p + x + q;
    assert forall i :: 0 <= i < |p| ==> s[i] == p[i];
    assert forall i :: |s| - |q| <= i < |s| ==> s[i] == q[i - (|s| - |q|)];
    assert s[|p|] == x[0];
    assert s[|s| - |q| - 1] == x[|x| - 1];
    assert LeadingSpace(s) == |p|;
    assert TrailingSpace(s) == |q|;
    assert s[|p|..|s| - |q|] == x;
  }

  /** Greatest index below `k` that holds `c`, or -1. */
  function LastBefore(s: string, c: char, k: nat): (r: int)
    requires k <= |s|
    ensures -1 <= r < k
    ensures r >= 0 ==> s[r] == c
    ensures forall i :: r < i < k ==> s[i] != c
  {
    if k == 0 then -1 else if s[k - 1] == c then k - 1 else LastBefore(s, c, k - 1)
  }

  /**
   * `String.prototype.lastIndexOf(c, position)` for a one-character search string: the
   * last occurrence at or before `position`, where a negative position is clamped to 0.
   */
  function LastIndexOf(s: string, c: char, position: int): (r: int)
    ensures -1 <= r < |s|
    ensures r >= 0 ==> s[r] == c && r <= Clamp(position, |s|)
    ensures forall i :: r < i < |s| && i <= Clamp(position, |s|) ==> s[i] != c
  {
    var start := Clamp(position, |s|);
    LastBefore(s, c, if start < |s| then start + 1 else |s|)
  }

  /** Least index at or after `k` that holds `c`, or -1. */
  function FirstFrom(s: string, c: char, k: nat): (r: int)
    requires k <= |s|
    ensures r == -1 || (k <= r < |s| && s[r] == c)
    ensures forall i :: k <= i < |s| && (r == -1 || i < r) ==> s[i] != c
    decreases |s| - k
  {
    if k == |s| then -1 else if s[k] == c then k else FirstFrom(s, c, k + 1)
  }

  /** `String.prototype.indexOf(c, position)` for a one-character search string. */
  function IndexOf(s: string, c: char, position: int): (r: int)
    ensures r == -1 || (Clamp(position, |s|) <= r < |s| && s[r] == c)
    ensures forall i :: Clamp(position, |s|) <= i < |s| && (r == -1 || i < r) ==> s[i] != c
  {
    FirstFrom(s, c, Clamp(position, |s|))
  }

  /** `String.prototype.substring(start, end)`: both clamped into the string, and swapped when out of order. */
  function Substring(s: string, start: int, end: int): string {
    var a, b := Clamp(start, |s|), Clamp(end, |s|);
    if a <= b then s[a..b] else s[b..a]
  }

  // ----- Decimal numbers -----

  /** `\d`: an ASCII decimal digit. */
  predicate IsDigit(c: char) {
    '0' <= c <= '9'
  }

  predicate AllDigits(s: string) {
    forall i :: 0 <= i < |s| ==> IsDigit(s[i])
  }

  /** Number of decimal digits at the start of `s`: what a greedy `\d+` or `\d*` consumes. */
  function DigitRun(s: string): (n: nat)
    ensures n <= |s|
    ensures forall i :: 0 <= i < n ==> IsDigit(s[i])
    ensures n < |s| ==> !IsDigit(s[n])
  {
    if |s| > 0 && IsDigit(s[0]) then 1 + DigitRun(s[1..]) else 0
  }

  /** The value of a run of decimal digits, as `parseInt` reads it while the result is exact. */
  function DigitsValue(s: string): nat
    requires AllDigits(s)
  {
    if s == [] then 0 else 10 * DigitsValue(s[..|s| - 1]) + (s[|s| - 1] as int - '0' as int)
  }

  function DigitChar(d: nat): (c: char)
    requires d < 10
    ensures IsDigit(c) && c as int - '0' as int == d
  {
    ('0' as int + d) as char
  }

  /**
   * A non-negative integer converted to a string: its decimal digits, without leading zeros,
   * as `String` writes an integer below 10^21.
   */
  function Decimal(n: nat): (r: string)
    ensures |r| >= 1 && AllDigits(r)
    ensures r[0] == '0' ==> n == 0
  {
    if n < 10 then [DigitChar(n)] else Decimal(n / 10) + [DigitChar(n % 10)]
  }

  /** Reading back the decimal form of an integer gives the integer (for exact integers). */
  lemma {:induction false} DecimalRoundTrip(n: nat)
    ensures DigitsValue(Decimal(n)) == n
  {
    if n >= 10 {
      DecimalRoundTrip(n / 10);
      var r := Decimal(n);
      assert r[..|r| - 1] == Decimal(n / 10);
    }
  }
}
