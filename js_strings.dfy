/**
 * The three JavaScript string operations the authenticator relies on,
 * written out over `seq<char>`: `s.indexOf(sub)`, `s.split(sep)[0]` and
 * the decimal rendering of a number inside a template literal.
 */
module JsStrings {

  /** True when `sub` occurs in `s` starting at index `j`. */
  predicate OccursAt(s: string, sub: string, j: int) {
    0 <= j && j + |sub| <= |s| && s[j..j + |sub|] == sub
  }

  /** `s.indexOf(sub)`: the first index at which `sub` occurs in `s`, or -1 when it occurs nowhere. */
  function IndexOf(s: string, sub: string): (i: int)
    ensures -1 <= i
    ensures i >= 0 ==> OccursAt(s, sub, i)
    ensures forall j :: 0 <= j < i ==> !OccursAt(s, sub, j)
    ensures i == -1 <==> forall j :: !OccursAt(s, sub, j)
    decreases |s|
  {
    if |s| < |sub| then -1
    else if s[..|sub|] == sub then assert OccursAt(s, sub, 0); 0
    else
      var k := IndexOf(s[1..], sub);
      forall j | 1 <= j ensures OccursAt(s[1..], sub, j - 1) <==> OccursAt(s, sub, j) {
        OccursAtTail(s, sub, j - 1);
      }
      assert !OccursAt(s, sub, 0);
      if k < 0 then -1 else k + 1
  }

  /** Dropping the first character of `s` moves every occurrence one place to the left. */
  lemma OccursAtTail(s: string, sub: string, j: nat)
    requires s != []
    ensures OccursAt(s[1..], sub, j) <==> OccursAt(s, sub, j + 1)
  {
    if j + 1 + |sub| <= |s| {
      assert s[1..][j..j + |sub|] == s[j + 1..j + 1 + |sub|];
    }
  }

  /** `s.split([sep])[0]`: the text of `s` before the first `sep`, or all of `s` when there is none. */
  function SplitHead(s: string, sep: char): (h: string)
    ensures h <= s
    ensures sep !in h
    ensures |h| < |s| ==> s[|h|] == sep
    decreases |s|
  {
    if s == [] || s[0] == sep then [] else [s[0]] + SplitHead(s[1..], sep)
  }

  /** `SplitHead` is pinned down by where the first separator is. */
  lemma SplitHeadAt(s: string, sep: char, k: nat)
    requires k <= |s| && sep !in s[..k]
    requires k < |s| ==> s[k] == sep
    ensures SplitHead(s, sep) == s[..k]
  {
  }

  predicate IsDigit(c: char) {
    '0' <= c <= '9'
  }

  predicate AllDigits(s: string) {
    forall i :: 0 <= i < |s| ==> IsDigit(s[i])
  }

  function DigitChar(d: nat): (c: char)
    requires d < 10
    ensures IsDigit(c) && c as int - '0' as int == d
  {
    ('0' as int + d) as char
  }

  /**
   * The decimal text of a non-negative integer: at least one digit and no
   * leading zero except for "0" itself. JavaScript renders a number in a
   * template literal this way for integers below 10^21, which covers every
   * HTTP status code.
   */
  function NumberToString(n: nat): (s: string)
    ensures s != [] && AllDigits(s)
    ensures s[0] == '0' <==> n == 0
    ensures n == 0 ==> s == "0"
    decreases n
  {
    if n < 10 then [DigitChar(n)] else NumberToString(n / 10) + [DigitChar(n % 10)]
  }

  /** The value of a string of decimal digits; the reference that `NumberToString` is checked against. */
  function DecimalValue(s: string): nat
    requires AllDigits(s)
    decreases |s|
  {
    if s == [] then 0 else 10 * DecimalValue(s[..|s| - 1]) + (s[|s| - 1] as int - '0' as int)
  }

  /** Reading back the rendered digits gives the number again. */
  lemma {:induction false} DecimalRoundTrip(n: nat)
    ensures DecimalValue(NumberToString(n)) == n
  {
    if n >= 10 {
      DecimalRoundTrip(n / 10);
      var s := NumberToString(n);
      assert s[..|s| - 1] == NumberToString(n / 10);
    }
  }
}
