/**
 * Python's str() on non-negative integers: the canonical decimal rendering
 * used for page numbers, together with its inverse. The inverse is what makes
 * the rendering injective, so that distinct page numbers give distinct URLs
 * and distinct save paths.
 */
module Decimal {

  predicate IsDigit(c: char) {
    '0' <= c <= '9'
  }

  predicate AllDigits(s: string) {
    forall i :: 0 <= i < |s| ==> IsDigit(s[i])
  }

  /** The character for the decimal digit d. */
  function Digit(d: nat): (c: char)
    requires d < 10
    ensures IsDigit(c)
  {
    (('0' as int) + d) as char
  }

  /** The value of a decimal digit character. */
  function DigitValue(c: char): (d: nat)
    requires IsDigit(c)
    ensures d < 10
    ensures Digit(d) == c
  {
    (c as int) - ('0' as int)
  }

  lemma DigitValueOfDigit(d: nat)
    requires d < 10
    ensures DigitValue(Digit(d)) == d
  {
  }

  /** str(n) for a non-negative integer n: at least one character, no leading zero. */
  function DecimalString(n: nat): (s: string)
    ensures 1 <= |s|
    ensures s[0] == '0' ==> n == 0
    decreases n
  {
    if n < 10 then [Digit(n)] else DecimalString(n / 10) + [Digit(n % 10)]
  }

  /** str(n) consists of decimal digits only. */
  lemma {:induction false} DecimalStringDigits(n: nat)
    ensures AllDigits(DecimalString(n))
    decreases n
  {
    if n >= 10 {
      DecimalStringDigits(n / 10);
    }
  }

  /** int(s) for a string of decimal digits (the empty string reads as 0). */
  function ParseDecimal(s: string): (n: nat)
    requires AllDigits(s)
  {
    if s == [] then 0 else 10 * ParseDecimal(s[..|s| - 1]) + DigitValue(s[|s| - 1])
  }

  /** Reading back the decimal rendering gives the number rendered. */
  lemma {:induction false} ParseDecimalString(n: nat)
    ensures AllDigits(DecimalString(n)) && ParseDecimal(DecimalString(n)) == n
    decreases n
  {
    DecimalStringDigits(n);
    var s := DecimalString(n);
    if n < 10 {
      DigitValueOfDigit(n);
    } else {
      assert s[..|s| - 1] == DecimalString(n / 10);
      ParseDecimalString(n / 10);
      DigitValueOfDigit(n % 10);
    }
  }

  /** Distinct numbers have distinct decimal renderings. */
  lemma DecimalStringInjective(a: nat, b: nat)
    requires DecimalString(a) == DecimalString(b)
    ensures a == b
  {
    ParseDecimalString(a);
    ParseDecimalString(b);
  }
}
