/**
 * ASCII decimal digits: the `\d` character class of a JavaScript regular
 * expression without the `u` flag, and the decimal text a template literal
 * produces for a non-negative integer (`${status}`).
 */
module Decimal {

  /** The characters `\d` matches. */
  predicate IsDigit(c: char) {
    '0' <= c <= '9'
  }

  predicate AllDigits(s: string) {
    forall k :: 0 <= k < |s| ==> IsDigit(s[k])
  }

  function DigitValue(c: char): (d: nat)
    requires IsDigit(c)
    ensures d < 10
  {
    c as int - '0' as int
  }

  function DigitChar(d: nat): (c: char)
    requires d < 10
    ensures IsDigit(c) && DigitValue(c) == d
  {
    ('0' as int + d) as char
  }

  /** The number a digit string denotes (the empty string denotes 0). */
  function Value(s: string): nat
    requires AllDigits(s)
  {
    if s == [] then 0 else 10 * Value(s[..|s| - 1]) + DigitValue(s[|s| - 1])
  }

  /** A decimal numeral as JavaScript prints an integer: at least one digit, no leading zero. */
  predicate IsNumeral(s: string) {
    0 < |s| && AllDigits(s) && (s[0] == '0' ==> s == "0")
  }

  /** The decimal text of `n`, as a template literal renders a non-negative integer. */
  function NatToDecimal(n: nat): (r: string)
    ensures IsNumeral(r)
    ensures Value(r) == n
  {
    if n < 10 then
      [DigitChar(n)]
    else
      var prefix := NatToDecimal(n / 10);
      var r := prefix + [DigitChar(n % 10)];
      assert r[..|r| - 1] == prefix;
      r
  }

  lemma {:induction false} NumeralPositive(s: string)
    requires IsNumeral(s) && s != "0"
    ensures Value(s) > 0
  {
    if |s| > 1 {
      var p := s[..|s| - 1];
      assert p[0] == s[0];
      NumeralPositive(p);
    }
  }

  /** NatToDecimal and Value are inverse on numerals: every numeral is the printout of its value. */
  lemma {:induction false} DecimalRoundTrip(s: string)
    requires IsNumeral(s)
    ensures NatToDecimal(Value(s)) == s
  {
    if |s| > 1 {
      var p := s[..|s| - 1];
      var d := DigitValue(s[|s| - 1]);
      assert p[0] == s[0];
      assert s != "0";
      assert IsNumeral(p);
      NumeralPositive(p);
      assert Value(s) == 10 * Value(p) + d;
      assert Value(s) / 10 == Value(p) && Value(s) % 10 == d;
      DecimalRoundTrip(p);
      assert [DigitChar(d)] == [s[|s| - 1]];
      assert s == p + [s[|s| - 1]];
    }
  }
}
