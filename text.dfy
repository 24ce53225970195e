/**
 * Character classes, substring search, number printing and parsing, and string
 * ordering, with the Python meaning the detectors rely on: `sub in s`, `str(n)`,
 * `int(digits)`, `hex(n)`, `s.lower()` and `<` on `str`. Only ASCII text is modelled.
 */
module Text {

  /** `\d` of a Python regular expression, restricted to ASCII. */
  predicate IsDigit(c: char) {
    '0' <= c <= '9'
  }

  /** `\w` of a Python regular expression, restricted to ASCII. */
  predicate IsWordChar(c: char) {
    ('a' <= c <= 'z') || ('A' <= c <= 'Z') || IsDigit(c) || c == '_'
  }

  /** `\s` of a Python regular expression, restricted to ASCII. */
  predicate IsSpace(c: char) {
    c == ' ' || c == '\t' || c == '\n' || c == '\r' || c == 11 as char || c == 12 as char
  }

  predicate IsHexDigit(c: char) {
    ('0' <= c <= '9') || ('a' <= c <= 'f') || ('A' <= c <= 'F')
  }

  /** The whitespace `int()` strips from its argument, restricted to ASCII: `\s` and the separators 0x1c-0x1f. */
  predicate IsStripSpace(c: char) {
    IsSpace(c) || (28 as char <= c <= 31 as char)
  }

  function StripLeft(s: string): (r: string)
    ensures |r| <= |s| && (r == [] || !IsStripSpace(r[0]))
  {
    if s != [] && IsStripSpace(s[0]) then StripLeft(s[1..]) else s
  }

  function StripRight(s: string): (r: string)
    ensures |r| <= |s| && (r == [] || !IsStripSpace(r[|r| - 1]))
  {
    if s != [] && IsStripSpace(s[|s| - 1]) then StripRight(s[..|s| - 1]) else s
  }

  /** Hex digits, with single underscores allowed between two of them. */
  predicate HexRun(s: string) {
    |s| >= 1 && IsHexDigit(s[0])
    && forall k :: 0 <= k < |s| ==> IsHexDigit(s[k]) || (s[k] == '_' && k + 1 < |s| && IsHexDigit(s[k + 1]))
  }

  /**
   * The text Python's `int(s, 16)` accepts instead of raising `ValueError`:
   * surrounding whitespace, an optional sign, an optional "0x" or "0X" (which
   * one underscore may follow), then a run of hex digits.
   */
  predicate ParsesAsHexInt(s: string) {
    var t := StripRight(StripLeft(s));
    var u := if t != [] && (t[0] == '+' || t[0] == '-') then t[1..] else t;
    if |u| >= 2 && u[0] == '0' && (u[1] == 'x' || u[1] == 'X') then
      var d := u[2..];
      HexRun(if d != [] && d[0] == '_' then d[1..] else d)
    else HexRun(u)
  }

  predicate StartsWith(s: string, prefix: string) {
    |prefix| <= |s| && s[..|prefix|] == prefix
  }

  /** Python's `sub in s`. */
  predicate Contains(s: string, sub: string)
    decreases |s|
  {
    StartsWith(s, sub) || (|s| > 0 && Contains(s[1..], sub))
  }

  lemma {:induction false} ContainsAt(s: string, i: nat, sub: string)
    requires i <= |s| && StartsWith(s[i..], sub)
    ensures Contains(s, sub)
  {
    if i > 0 {
      assert s[1..][i - 1..] == s[i..];
      ContainsAt(s[1..], i - 1, sub);
    }
  }

  lemma {:induction false} ContainsWitness(s: string, sub: string) returns (i: nat)
    requires Contains(s, sub)
    ensures i <= |s| && StartsWith(s[i..], sub)
    decreases |s|
  {
    if StartsWith(s, sub) {
      i := 0;
    } else {
      var j := ContainsWitness(s[1..], sub);
      assert s[1..][j..] == s[j + 1..];
      i := j + 1;
    }
  }

  function DigitChar(d: nat): (c: char)
    requires d < 10
    ensures IsDigit(c)
  {
    ['0', '1', '2', '3', '4', '5', '6', '7', '8', '9'][d]
  }

  function DigitValue(c: char): (d: nat)
    requires IsDigit(c)
    ensures d < 10
  {
    (c as int - '0' as int) as nat
  }

  /** Python's `str(n)` for a natural number. */
  function NatToString(n: nat): (s: string)
    ensures |s| > 0
    decreases n
  {
    if n < 10 then [DigitChar(n)] else NatToString(n / 10) + [DigitChar(n % 10)]
  }

  /** Python's `str(i)` (and `"%d" % i`) for an integer. */
  function IntToString(i: int): string {
    if i < 0 then "-" + NatToString(-i) else NatToString(i)
  }

  predicate AllDigits(s: string) {
    forall k :: 0 <= k < |s| ==> IsDigit(s[k])
  }

  /** Python's `int(s)` for a string of decimal digits. */
  function ParseDecimal(s: string): nat
    requires AllDigits(s)
  {
    if s == [] then 0 else ParseDecimal(s[..|s| - 1]) * 10 + DigitValue(s[|s| - 1])
  }

  /** Printing a number in decimal and reading it back gives the number. */
  lemma {:induction false} ParseNatToString(n: nat)
    ensures AllDigits(NatToString(n))
    ensures ParseDecimal(NatToString(n)) == n
    decreases n
  {
    var d := DigitChar(n % 10);
    assert DigitValue(d) == n % 10 by {
      assert d == ['0', '1', '2', '3', '4', '5', '6', '7', '8', '9'][n % 10];
    }
    if n >= 10 {
      ParseNatToString(n / 10);
      var s := NatToString(n);
      assert s[..|s| - 1] == NatToString(n / 10);
    }
  }

  function HexDigitChar(d: nat): (c: char)
    requires d < 16
    ensures IsHexDigit(c)
  {
    ['0', '1', '2', '3', '4', '5', '6', '7', '8', '9', 'a', 'b', 'c', 'd', 'e', 'f'][d]
  }

  function HexDigits(n: nat): (s: string)
    ensures |s| > 0 && forall k :: 0 <= k < |s| ==> IsHexDigit(s[k])
    decreases n
  {
    if n < 16 then [HexDigitChar(n)] else HexDigits(n / 16) + [HexDigitChar(n % 16)]
  }

  /** Python's `hex(n)` for a natural number: "0x" and lower-case digits. */
  function Hex(n: nat): (s: string)
    ensures StartsWith(s, "0x") && |s| > 2
  {
    "0x" + HexDigits(n)
  }

  /** What `hex(n)` prints after its "0x" is read back by `int(..., 16)` without error. */
  lemma HexDigitsParse(n: nat)
    ensures ParsesAsHexInt(HexDigits(n))
  {
    var s := HexDigits(n);
    assert StripLeft(s) == s;
    assert StripRight(s) == s;
    assert HexRun(s);
  }

  function LowerChar(c: char): char {
    if 'A' <= c <= 'Z' then (c as int + 32) as char else c
  }

  /** Python's `s.lower()` on ASCII text. */
  function Lower(s: string): (r: string)
    ensures |r| == |s|
    ensures forall k :: 0 <= k < |s| ==> r[k] == LowerChar(s[k])
  {
    if s == [] then [] else [LowerChar(s[0])] + Lower(s[1..])
  }

  /** Python's `a <= b` on strings: lexicographic by code point. */
  predicate LexLe(a: string, b: string)
    decreases |a|
  {
    a == [] || (b != [] && (a[0] < b[0] || (a[0] == b[0] && LexLe(a[1..], b[1..]))))
  }

  /** Any two strings are ordered one way or the other. */
  lemma {:induction false} LexLeTotal(a: string, b: string)
    ensures LexLe(a, b) || LexLe(b, a)
    decreases |a|
  {
    if a != [] && b != [] && a[0] == b[0] {
      LexLeTotal(a[1..], b[1..]);
    }
  }

  /** Every string is ordered before itself. */
  lemma {:induction false} LexLeReflexive(a: string)
    ensures LexLe(a, a)
    decreases |a|
  {
    if a != [] {
      LexLeReflexive(a[1..]);
    }
  }
}
