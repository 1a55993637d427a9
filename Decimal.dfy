/**
 * How the recorder prints numbers: a non-negative integer in decimal
 * (JavaScript's String(n)), and a payment held in cents printed in dollars
 * with two decimals ((cents / 100).toFixed(2)). Each printer has a reader
 * that recovers the number.
 */
module Decimal {

  predicate IsDigit(c: char)
  {
    '0' <= c <= '9'
  }

  predicate AllDigits(s: string)
  {
    forall k :: 0 <= k < |s| ==> IsDigit(s[k])
  }

  function DigitChar(d: nat): (c: char)
    requires d < 10
    ensures IsDigit(c)
  {
    ['0', '1', '2', '3', '4', '5', '6', '7', '8', '9'][d]
  }

  function DigitValue(c: char): (d: nat)
    requires IsDigit(c)
    ensures d < 10
  {
    (c as int - '0' as int) as nat
  }

  lemma DigitValueOfChar(d: nat)
    requires d < 10
    ensures DigitValue(DigitChar(d)) == d
  {
  }

  /** String(n) for a non-negative integer: its decimal digits, most significant first, no leading zeros. */
  function NatToString(n: nat): (r: string)
    ensures |r| > 0 && AllDigits(r)
    ensures |r| > 1 ==> r[0] != '0'
    ensures ',' !in r && '"' !in r && '\n' !in r
  {
    var r := if n < 10 then [DigitChar(n)] else NatToString(n / 10) + [DigitChar(n % 10)];
    assert forall c :: c in r ==> IsDigit(c);
    r
  }

  /** The number a string of decimal digits denotes. */
  function ParseNat(s: string): nat
    requires AllDigits(s)
  {
    if s == [] then 0 else ParseNat(s[..|s| - 1]) * 10 + DigitValue(s[|s| - 1])
  }

  /** Reading the printed number gives the number back. */
  lemma {:induction false} NatToStringRoundTrip(n: nat)
    ensures ParseNat(NatToString(n)) == n
  {
    var s := NatToString(n);
    if n < 10 {
      DigitValueOfChar(n);
      assert s[..|s| - 1] == [];
    } else {
      var prefix := NatToString(n / 10);
      assert s[..|s| - 1] == prefix;
      NatToStringRoundTrip(n / 10);
      DigitValueOfChar(n % 10);
    }
  }

  /** (cents / 100).toFixed(2): whole dollars, a point, then exactly two digits of cents. */
  function FormatCents(cents: nat): (r: string)
    ensures |r| >= 4 && r[|r| - 3] == '.'
    ensures AllDigits(r[..|r| - 3]) && AllDigits(r[|r| - 2..])
    ensures ',' !in r && '"' !in r && '\n' !in r
  {
    var whole := NatToString(cents / 100);
    var r := whole + ['.', DigitChar(cents % 100 / 10), DigitChar(cents % 10)];
    assert r[..|r| - 3] == whole;
    r
  }

  /** The amount in cents a dollars-and-cents string denotes. */
  function ParseCents(s: string): nat
    requires |s| >= 4 && s[|s| - 3] == '.'
    requires AllDigits(s[..|s| - 3]) && AllDigits(s[|s| - 2..])
  {
    ParseNat(s[..|s| - 3]) * 100 + DigitValue(s[|s| - 2]) * 10 + DigitValue(s[|s| - 1])
  }

  /** The printed payment denotes exactly the stored number of cents. */
  lemma FormatCentsRoundTrip(cents: nat)
    ensures ParseCents(FormatCents(cents)) == cents
  {
    var s := FormatCents(cents);
    assert s[..|s| - 3] == NatToString(cents / 100);
    NatToStringRoundTrip(cents / 100);
    DigitValueOfChar(cents % 100 / 10);
    DigitValueOfChar(cents % 10);
  }

  /** String(i) for an integer: a minus sign before the digits of a negative one. */
  function IntToString(i: int): (r: string)
    ensures |r| > 0 && ',' !in r && '"' !in r && '\n' !in r
    ensures i >= 0 ==> AllDigits(r) && ParseNat(r) == i
  {
    var digits := NatToString(if i < 0 then -i else i);
    assert forall c :: c in digits ==> IsDigit(c);
    if i >= 0 then NatToStringRoundTrip(i); digits else "-" + digits
  }

  /** JavaScript's String(true) and String(false). */
  function BoolToString(b: bool): (r: string)
    ensures |r| > 0 && ',' !in r && '"' !in r && '\n' !in r
    ensures r == "true" <==> b
  {
    if b then "true" else "false"
  }
}
