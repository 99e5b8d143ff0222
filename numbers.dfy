/**
 * The two numeric conversions the normalization layer relies on:
 * `Math.pow(10, n)` scaling of minor-unit amounts, and `toString()` on
 * integer identifiers, written out as decimal digits.
 */
module Numbers {

  /** `Math.pow(10, n)` for a natural exponent. */
  function Pow10(n: nat): (r: nat)
    ensures r > 0
  {
    if n == 0 then 1 else 10 * Pow10(n - 1)
  }

  /** An amount in minor units (cents for a minor unit of 2) read as major units. */
  function FromMinorUnits(value: int, minorUnit: nat): real
  {
    value as real / Pow10(minorUnit) as real
  }

  /** Scaling back up by the same power of ten gives the wire value back. */
  lemma FromMinorUnitsRoundTrip(value: int, minorUnit: nat)
    ensures FromMinorUnits(value, minorUnit) * Pow10(minorUnit) as real == value as real
  {
  }

  lemma MinorUnitsExample()
    ensures FromMinorUnits(2500, 2) == 25.0
  {
    assert Pow10(2) == 100;
  }

  function DigitChar(d: nat): (c: char)
    requires d < 10
  {
    ('0' as int + d) as char
  }

  predicate IsDigit(c: char)
  {
    '0' <= c <= '9'
  }

  /** The decimal digits of `n`, most significant first, with no leading zeros. */
  function NatToString(n: nat): (s: string)
    ensures |s| >= 1 && (|s| == 1 <==> n < 10)
    ensures forall i :: 0 <= i < |s| ==> IsDigit(s[i])
    ensures s[|s| - 1] == DigitChar(n % 10)
    ensures n > 0 ==> s[0] != '0'
  {
    if n < 10 then [DigitChar(n)] else NatToString(n / 10) + [DigitChar(n % 10)]
  }

  /** JavaScript's `toString()` on an integer: a minus sign for negatives, then the digits. */
  function IntToString(i: int): (s: string)
    ensures |s| >= 1 && (s[0] == '-' <==> i < 0)
  {
    if i < 0 then "-" + NatToString(-i) else NatToString(i)
  }

  /** Different numbers have different decimal strings. */
  lemma {:induction false} NatToStringInjective(a: nat, b: nat)
    requires NatToString(a) == NatToString(b)
    ensures a == b
  {
    var s := NatToString(a);
    assert DigitChar(a % 10) == DigitChar(b % 10);
    if a >= 10 {
      assert s == NatToString(a / 10) + [DigitChar(a % 10)];
      assert s == NatToString(b / 10) + [DigitChar(b % 10)];
      assert s[..|s| - 1] == NatToString(a / 10) == NatToString(b / 10);
      NatToStringInjective(a / 10, b / 10);
    }
  }

  /** Different integers have different `toString()` results. */
  lemma IntToStringInjective(a: int, b: int)
    requires IntToString(a) == IntToString(b)
    ensures a == b
  {
    var s := IntToString(a);
    if a < 0 {
      assert s[1..] == NatToString(-a) == NatToString(-b);
      NatToStringInjective(-a, -b);
    } else {
      NatToStringInjective(a, b);
    }
  }

  lemma IntToStringExample()
    ensures IntToString(277) == "277"
  {
    assert NatToString(2) == "2";
    assert NatToString(27) == "27";
  }
}
