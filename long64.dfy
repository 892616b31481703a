/**
 * Signed 64-bit integers as carried by the `long` library's `Long` type, and the two
 * conversions the signDirect bridge relies on: `Long.prototype.toString()` (radix 10) and
 * `Long.fromString(s)` (signed, radix 10). Arithmetic wraps modulo 2^64 as in the library.
 */
module Long64 {
  import opened Base
  import opened Decimal

  const TwoTo63: int := 0x8000_0000_0000_0000
  const TwoTo64: int := 0x1_0000_0000_0000_0000

  newtype Int64 = x: int | -0x8000_0000_0000_0000 <= x < 0x8000_0000_0000_0000

  const MinValue: Int64 := -0x8000_0000_0000_0000

  /** Two's-complement truncation of an unbounded integer to 64 bits. */
  function Wrap(x: int): (r: Int64)
    ensures (r as int - x) % TwoTo64 == 0
    ensures -TwoTo63 <= x < TwoTo63 ==> r as int == x
  {
    var m := x % TwoTo64;
    if m < TwoTo63 then m as Int64 else (m - TwoTo64) as Int64
  }

  /** `Long.prototype.neg`: negation, where the most negative value is its own negation. */
  function Neg(n: Int64): (r: Int64)
    ensures n != MinValue ==> r as int == -(n as int)
    ensures n == MinValue ==> r == MinValue
  {
    Wrap(-(n as int))
  }

  /** `Long.prototype.toString()`: the signed decimal rendering. */
  function ToString(n: Int64): (s: string)
    ensures |s| > 0
    ensures s[0] == '-' <==> n < 0
  {
    SignedDigits(n as int)
  }

  /**
   * `Long.fromString(s)` for a signed Long in radix 10: the empty string throws, the four
   * special spellings read as zero, a '-' anywhere but first throws, a leading '-' negates
   * the rest, and a digit string is read modulo 2^64.
   */
  function FromString(s: string): (r: Result<Int64>)
    ensures s == "" ==> r == Err("empty string")
    ensures r.Err? ==> r.error != ""
    ensures s != "" && IsDecimal(s) ==> r == Ok(Wrap(Parse(s)))
    decreases |s|
  {
    if |s| == 0 then Err("empty string")
    else if s == "NaN" || s == "Infinity" || s == "+Infinity" || s == "-Infinity" then Ok(0)
    else if s[0] != '-' && '-' in s then Err("interior hyphen")
    else if s[0] == '-' then
      match FromString(s[1..])
      case Ok(n) => Ok(Neg(n))
      case Err(e) => Err(e)
    else if IsDecimal(s) then Ok(Wrap(Parse(s)))
    else Err("not a decimal string")
  }

  /** A string that starts with a digit is none of the four special spellings. */
  lemma DigitsAreNotSpecial(s: string)
    requires |s| > 0 && IsDigit(s[0])
    ensures s != "NaN" && s != "Infinity" && s != "+Infinity" && s != "-Infinity"
  {
    assert !IsDigit('N') && !IsDigit('I') && !IsDigit('+') && !IsDigit('-');
  }

  /** Every 64-bit value, negative, zero, beyond 2^53 or the minimum, survives toString then fromString. */
  lemma StringRoundTrip(n: Int64)
    ensures FromString(ToString(n)) == Ok(n)
  {
    if n >= 0 {
      NonNegativeRoundTrip(n);
    } else {
      NegativeRoundTrip(n);
    }
  }

  /** A non-negative value renders as plain digits, which read back modulo 2^64 as itself. */
  lemma NonNegativeRoundTrip(n: Int64)
    requires n >= 0
    ensures FromString(ToString(n)) == Ok(n)
  {
    var s := ToString(n);
    assert IsDecimal(s) && Parse(s) == n as int;
    DigitsAreNotSpecial(s);
  }

  /** A negative value renders as '-' and the digits of its magnitude; negating the magnitude read back gives it again. */
  lemma NegativeRoundTrip(n: Int64)
    requires n < 0
    ensures FromString(ToString(n)) == Ok(n)
  {
    var s := ToString(n);
    var rest := s[1..];
    assert IsDecimal(rest) && Parse(rest) == -(n as int) && |rest| > 0;
    DigitsAreNotSpecial(rest);
    assert s != "NaN" && s != "Infinity" && s != "+Infinity" && s != "-Infinity" by {
      assert s == "-" + rest;
      assert "-Infinity" == "-" + "Infinity";
    }
    assert '-' !in rest by {
      assert !IsDigit('-');
    }
    assert FromString(rest) == Ok(Wrap(-(n as int)));
    if n == MinValue {
      assert Wrap(-(n as int)) == MinValue;
    } else {
      assert Wrap(-(n as int)) as int == -(n as int);
    }
  }

  /** Distinct 64-bit values have distinct decimal renderings. */
  lemma ToStringInjective(a: Int64, b: Int64)
    requires ToString(a) == ToString(b)
    ensures a == b
  {
    StringRoundTrip(a);
    StringRoundTrip(b);
  }
}
