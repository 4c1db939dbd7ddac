/** Decimal rendering and reading of integers, as JavaScript does it:
    `String(n)` (and template interpolation `${n}`) for an integer, and
    `parseInt(s, 10)`. */
module Decimal {
  import opened Wrappers
  import Text

  predicate IsDigit(c: char) { '0' <= c <= '9' }

  predicate AllDigits(s: string) {
    forall k :: 0 <= k < |s| ==> IsDigit(s[k])
  }

  function DigitChar(d: nat): (c: char)
    requires d < 10
    ensures IsDigit(c)
  {
    ('0' as int + d) as char
  }

  function DigitValue(c: char): (d: nat)
    requires IsDigit(c)
    ensures d < 10 && DigitChar(d) == c
  {
    c as int - '0' as int
  }

  /** `String(n)` for a natural number: its digits, most significant first,
      without leading zeros. */
  function NatToString(n: nat): (s: string)
    ensures |s| >= 1 && AllDigits(s)
    ensures s[0] == '0' ==> n == 0
    decreases n
  {
    if n < 10 then [DigitChar(n)] else NatToString(n / 10) + [DigitChar(n % 10)]
  }

  /** `String(i)` for an integer: a minus sign before the digits of a negative one. */
  function IntToString(i: int): (s: string)
    ensures |s| >= 1
    ensures (s[0] == '-') == (i < 0)
  {
    if i < 0 then "-" + NatToString(-i) else NatToString(i)
  }

  /** The number a string of digits denotes. */
  function DigitsValue(s: string): nat
    requires AllDigits(s)
    decreases |s|
  {
    if s == [] then 0 else DigitsValue(s[..|s| - 1]) * 10 + DigitValue(s[|s| - 1])
  }

  /** Length of the longest prefix of `s` made of digits. */
  function DigitRun(s: string): (n: nat)
    ensures n <= |s| && AllDigits(s[..n])
    ensures n < |s| ==> !IsDigit(s[n])
    decreases |s|
  {
    if s == [] || !IsDigit(s[0]) then 0
    else
      var n := 1 + DigitRun(s[1..]);
      assert s[..n] == [s[0]] + s[1..][..n - 1];
      n
  }

  /** `parseInt(s, 10)` on integers: leading whitespace is skipped, an optional
      sign is read, then the longest run of digits; `None` is `NaN`, the
      answer when there is no digit. */
  function ParseInt(s: string): (r: Option<int>)
    ensures r.None? <==> DigitRun(SignFree(Text.TrimStart(s))) == 0
  {
    var t := Text.TrimStart(s);
    var negative := t != [] && t[0] == '-';
    var body := SignFree(t);
    var n := DigitRun(body);
    if n == 0 then None
    else
      var v: int := DigitsValue(body[..n]);
      Some(if negative then -v else v)
  }

  /** `t` without one leading sign character. */
  function SignFree(t: string): string {
    if t != [] && (t[0] == '-' || t[0] == '+') then t[1..] else t
  }

  /** Reading back the digits `NatToString` writes gives the number. */
  lemma {:induction false} DigitsValueOfNatToString(n: nat)
    ensures DigitsValue(NatToString(n)) == n
    decreases n
  {
    var s := NatToString(n);
    if n >= 10 {
      var q := NatToString(n / 10);
      assert s[..|s| - 1] == q;
      DigitsValueOfNatToString(n / 10);
    }
  }

  /** `parseInt(String(n), 10) == n` for every natural number. */
  lemma ParseIntOfNatToString(n: nat)
    ensures ParseInt(NatToString(n)) == Some(n)
  {
    var s := NatToString(n);
    NotWhitespaceStart(s);
    assert SignFree(s) == s;
    DigitRunOfDigits(s);
    assert s[..|s|] == s;
    DigitsValueOfNatToString(n);
  }

  /** `parseInt(String(i), 10) == i` for every integer. */
  lemma ParseIntOfIntToString(i: int)
    ensures ParseInt(IntToString(i)) == Some(i)
  {
    if i < 0 {
      var d := NatToString(-i);
      var s := "-" + d;
      assert s[0] == '-' && s[1..] == d;
      NotWhitespaceStart(s);
      DigitRunOfDigits(d);
      assert d[..|d|] == d;
      DigitsValueOfNatToString(-i);
      ParseIntOfSigned(d);
    } else {
      ParseIntOfNatToString(i);
    }
  }

  lemma ParseIntOfSigned(d: string)
    requires d != [] && AllDigits(d)
    ensures ParseInt("-" + d) == Some(-(DigitsValue(d) as int))
  {
    var s := "-" + d;
    assert s[0] == '-' && s[1..] == d;
    NotWhitespaceStart(s);
    assert SignFree(s) == d;
    DigitRunOfDigits(d);
    assert d[..|d|] == d;
  }

  /** Trimming leaves alone a string that starts with a digit or a minus sign. */
  lemma NotWhitespaceStart(s: string)
    requires s != [] && (IsDigit(s[0]) || s[0] == '-')
    ensures Text.TrimStart(s) == s
  {
    assert !Text.IsJsWhitespace(s[0]);
  }

  lemma {:induction false} DigitRunOfDigits(s: string)
    requires AllDigits(s)
    ensures DigitRun(s) == |s|
    decreases |s|
  {
    if s != [] {
      DigitRunOfDigits(s[1..]);
    }
  }

  /** Different numbers are written differently. */
  lemma NatToStringInjective(m: nat, n: nat)
    requires NatToString(m) == NatToString(n)
    ensures m == n
  {
    ParseIntOfNatToString(m);
    ParseIntOfNatToString(n);
  }
}
