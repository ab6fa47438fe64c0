/** Decimal rendering of integers as `std::to_string` produces it (no sign for
    non-negative values, a leading '-' for negative ones, no leading zeros),
    and the parser that inverts it. */
module Decimal {

  predicate IsDigit(c: char) {
    '0' <= c <= '9'
  }

  function DigitChar(d: nat): (c: char)
    requires d < 10
    ensures IsDigit(c) && c as int - '0' as int == d
  {
    ['0', '1', '2', '3', '4', '5', '6', '7', '8', '9'][d]
  }

  /** A canonical unsigned decimal numeral: non-empty, digits only, and no
      leading zero unless the numeral is "0" itself. */
  predicate IsNatNumeral(s: string) {
    && |s| > 0
    && (forall i :: 0 <= i < |s| ==> IsDigit(s[i]))
    && (s[0] == '0' ==> |s| == 1)
  }

  /** `std::to_string` of an unsigned value. */
  function NatDecimal(n: nat): (s: string)
    ensures |s| > 0 && forall i :: 0 <= i < |s| ==> IsDigit(s[i])
    ensures s[0] == '0' ==> n == 0
  {
    if n < 10 then [DigitChar(n)] else NatDecimal(n / 10) + [DigitChar(n % 10)]
  }

  /** `std::to_string` of a signed value. */
  function IntDecimal(n: int): (s: string)
    ensures |s| > 0 && (s[0] == '-' <==> n < 0)
  {
    if n < 0 then "-" + NatDecimal(-n) else NatDecimal(n)
  }

  /** Value of a string of digits, most significant first (0 for ""). */
  function ParseNat(s: string): nat
    requires forall i :: 0 <= i < |s| ==> IsDigit(s[i])
  {
    if s == [] then 0
    else
      var last := s[|s| - 1];
      assert IsDigit(last);
      ParseNat(s[..|s| - 1]) * 10 + (last as int - '0' as int)
  }

  /** A canonical signed decimal numeral, as `std::to_string` writes one. */
  predicate IsIntNumeral(s: string) {
    || IsNatNumeral(s)
    || (|s| > 1 && s[0] == '-' && IsNatNumeral(s[1..]) && s[1..] != "0")
  }

  /** Value of a signed numeral. */
  function ParseInt(s: string): int
    requires IsIntNumeral(s)
  {
    if s[0] == '-' then -(ParseNat(s[1..]) as int) else ParseNat(s)
  }

  lemma {:induction false} NatDecimalIsNumeral(n: nat)
    ensures IsNatNumeral(NatDecimal(n))
    ensures ParseNat(NatDecimal(n)) == n
  {
    var s := NatDecimal(n);
    if n >= 10 {
      NatDecimalIsNumeral(n / 10);
      assert s[..|s| - 1] == NatDecimal(n / 10);
      assert s[0] == NatDecimal(n / 10)[0];
    }
  }

  /** Parsing the rendering of any integer gives the integer back. */
  lemma {:induction false} IntDecimalRoundTrip(n: int)
    ensures IsIntNumeral(IntDecimal(n))
    ensures ParseInt(IntDecimal(n)) == n
  {
    var s := IntDecimal(n);
    if n < 0 {
      NatDecimalIsNumeral(-n);
      assert s[1..] == NatDecimal(-n);
    } else {
      NatDecimalIsNumeral(n);
    }
  }

  /** Distinct integers render to distinct strings. */
  lemma IntDecimalInjective(a: int, b: int)
    requires IntDecimal(a) == IntDecimal(b)
    ensures a == b
  {
    IntDecimalRoundTrip(a);
    IntDecimalRoundTrip(b);
  }
}
