/** Decimal digit strings, as produced by `Number.prototype.toString()` and read back by `Long.fromString`. */
module Decimal {

  predicate IsDigit(c: char) {
    '0' <= c <= '9'
  }

  predicate IsDecimal(s: string) {
    forall i | 0 <= i < |s| :: IsDigit(s[i])
  }

  function DigitChar(d: nat): (c: char)
    requires d < 10
    ensures IsDigit(c)
  {
    (48 + d) as char
  }

  function DigitValue(c: char): (d: nat)
    requires IsDigit(c)
    ensures d < 10
    ensures DigitChar(d) == c
  {
    c as int - 48
  }

  /** The shortest decimal rendering of `n` (no leading zeros, "0" for zero). */
  function Digits(n: nat): (s: string)
    ensures |s| > 0 && IsDecimal(s)
    ensures s[0] == '0' ==> n == 0
    decreases n
  {
    if n < 10 then [DigitChar(n)] else Digits(n / 10) + [DigitChar(n % 10)]
  }

  /** The value of a non-empty or empty string of decimal digits. */
  function Parse(s: string): nat
    requires IsDecimal(s)
    decreases |s|
  {
    if s == [] then 0 else 10 * Parse(s[..|s| - 1]) + DigitValue(s[|s| - 1])
  }

  /** Reading back a rendering gives the number that was rendered. */
  lemma {:induction false} ParseDigits(n: nat)
    ensures Parse(Digits(n)) == n
    decreases n
  {
    var s := Digits(n);
    if n >= 10 {
      assert s[..|s| - 1] == Digits(n / 10);
      ParseDigits(n / 10);
    }
  }

  /** The rendering of a possibly negative integer: a '-' sign before the digits of its magnitude. */
  function SignedDigits(n: int): (s: string)
    ensures |s| > 0
    ensures s[0] == '-' <==> n < 0
    ensures n < 0 ==> |s| > 1 && IsDecimal(s[1..]) && Parse(s[1..]) == -n
    ensures n >= 0 ==> IsDecimal(s) && Parse(s) == n
  {
    ParseDigits(if n < 0 then -n else n);
    if n < 0 then "-" + Digits(-n) else Digits(n)
  }
}
