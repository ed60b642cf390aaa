/**
 * The JavaScript string built-ins the core relies on: `trim`, `toLowerCase`,
 * `toUpperCase` (ASCII letters only), `replaceAll` with a one-character pattern,
 * `includes`, and the decimal rendering of a non-negative integer.
 */
module Text {

  /** ECMAScript WhiteSpace and LineTerminator code points, the set `trim` removes. */
  predicate IsJsSpace(c: char) {
    || c == '\t' || c == '\n' || c == '\U{000B}' || c == '\U{000C}' || c == '\r' || c == ' '
    || c == '\U{00A0}' || c == '\U{1680}' || ('\U{2000}' <= c <= '\U{200A}')
    || c == '\U{2028}' || c == '\U{2029}' || c == '\U{202F}' || c == '\U{205F}'
    || c == '\U{3000}' || c == '\U{FEFF}'
  }

  /** Every character of `s` is white space (vacuously so for the empty string). */
  predicate AllSpace(s: string) {
    SpaceBetween(s, 0, |s|)
  }

  /** Every character of `s` from index `lo` up to, not including, `hi` is white space. */
  predicate SpaceBetween(s: string, lo: int, hi: int) {
    forall i :: lo <= i < hi && 0 <= i < |s| ==> IsJsSpace(s[i])
  }

  /** The index of the first character at or after `i` that is not white space, or `|s|`. */
  function SkipSpace(s: string, i: nat): (j: nat)
    requires i <= |s|
    ensures i <= j <= |s|
    ensures SpaceBetween(s, i, j)
    ensures j < |s| ==> !IsJsSpace(s[j])
    decreases |s| - i
  {
    if i < |s| && IsJsSpace(s[i]) then SkipSpace(s, i + 1) else i
  }

  /** The index just past the last character before `j`, and not before `lo`, that is not white space; `lo` if there is none. */
  function SkipSpaceBack(s: string, lo: nat, j: nat): (m: nat)
    requires lo <= j <= |s|
    ensures lo <= m <= j
    ensures SpaceBetween(s, m, j)
    ensures lo < m ==> !IsJsSpace(s[m - 1])
    decreases j
  {
    if lo < j && IsJsSpace(s[j - 1]) then SkipSpaceBack(s, lo, j - 1) else j
  }

  /** `s.trim()`: `s` without its leading and trailing white space. */
  function Trim(s: string): (r: string)
    ensures r == [] <==> AllSpace(s)
    ensures r != [] ==> !IsJsSpace(r[0]) && !IsJsSpace(r[|r| - 1])
  {
    var a := SkipSpace(s, 0);
    var b := SkipSpaceBack(s, a, |s|);
    assert a == |s| ==> b == a;
    s[a..b]
  }

  /**
   * Trimming only cuts white space from the ends: the result occurs in `s` right after
   * its leading white space, and everything before and after it is white space.
   */
  lemma TrimIsInfix(s: string)
    ensures OccursAt(s, Trim(s), SkipSpace(s, 0))
    ensures SpaceBetween(s, 0, SkipSpace(s, 0))
    ensures SpaceBetween(s, SkipSpace(s, 0) + |Trim(s)|, |s|)
  {
  }

  /** ASCII case mapping of one character; every other character is left as it is. */
  function LowerChar(c: char): char {
    if 'A' <= c <= 'Z' then (c as int - 'A' as int + 'a' as int) as char else c
  }

  function UpperChar(c: char): char {
    if 'a' <= c <= 'z' then (c as int - 'a' as int + 'A' as int) as char else c
  }

  /** `s.toLowerCase()`, restricted to ASCII letters. */
  function Lower(s: string): (r: string)
    ensures |r| == |s|
    ensures forall i :: 0 <= i < |s| ==> r[i] == LowerChar(s[i])
  {
    if s == [] then [] else [LowerChar(s[0])] + Lower(s[1..])
  }

  /** `s.replaceAll(from, to)` for one-character `from` and `to`. */
  function ReplaceChar(s: string, from: char, to: char): (r: string)
    ensures |r| == |s|
    ensures forall i :: 0 <= i < |s| ==> r[i] == if s[i] == from then to else s[i]
  {
    if s == [] then [] else [if s[0] == from then to else s[0]] + ReplaceChar(s[1..], from, to)
  }

  /** `q` occurs in `s` starting at index `i`. */
  ghost predicate OccursAt(s: string, q: string, i: int) {
    0 <= i && i + |q| <= |s| && s[i..i + |q|] == q
  }

  /** `s.includes(q)`. */
  function Contains(s: string, q: string): (b: bool)
    ensures b <==> exists i :: OccursAt(s, q, i)
    decreases |s|
  {
    if |q| > |s| then false
    else if q <= s then (assert OccursAt(s, q, 0); true)
    else
      var b := Contains(s[1..], q);
      assert forall i :: OccursAt(s[1..], q, i) <==> OccursAt(s, q, i + 1);
      assert !OccursAt(s, q, 0);
      assert (exists i :: OccursAt(s, q, i)) ==> exists i :: OccursAt(s[1..], q, i) by {
        if i :| OccursAt(s, q, i) {
          assert i != 0;
          assert OccursAt(s[1..], q, i - 1);
        }
      }
      b
  }

  function DigitChar(d: nat): char
    requires d < 10
  {
    "0123456789"[d]
  }

  /** The decimal digits of `n`, without leading zeros: JavaScript's `String(n)`. */
  function Decimal(n: nat): (r: string)
    ensures r != []
    ensures forall i :: 0 <= i < |r| ==> '0' <= r[i] <= '9'
  {
    if n < 10 then [DigitChar(n)] else Decimal(n / 10) + [DigitChar(n % 10)]
  }

  /** The number a string of decimal digits denotes. */
  function DecimalValue(s: string): nat
    requires forall i :: 0 <= i < |s| ==> '0' <= s[i] <= '9'
  {
    if s == [] then 0 else 10 * DecimalValue(s[..|s| - 1]) + (s[|s| - 1] as int - '0' as int)
  }

  /** `Decimal` loses nothing: reading the digits back gives `n`. */
  lemma {:induction false} DecimalRoundTrip(n: nat)
    ensures DecimalValue(Decimal(n)) == n
  {
    if n >= 10 {
      DecimalRoundTrip(n / 10);
      var r := Decimal(n);
      assert r[..|r| - 1] == Decimal(n / 10);
    }
  }

  /** Different numbers render differently. */
  lemma DecimalInjective(m: nat, n: nat)
    requires Decimal(m) == Decimal(n)
    ensures m == n
  {
    DecimalRoundTrip(m);
    DecimalRoundTrip(n);
  }
}
