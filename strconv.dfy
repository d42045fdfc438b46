/**
 * Decimal integers as the gateway parses them from query parameters
 * (`strconv.Atoi` and `strconv.ParseInt(s, 10, 64)`) and prints them into
 * upstream URLs (`%d`). Integers are 64-bit, as on the platforms the
 * gateway is built for.
 */
module Strconv {
  import opened Wrappers

  const MinInt64: int := -0x8000_0000_0000_0000
  const MaxInt64: int := 0x7fff_ffff_ffff_ffff

  predicate IsDigit(c: char) { '0' <= c <= '9' }

  predicate AllDigits(s: string) { forall i | 0 <= i < |s| :: IsDigit(s[i]) }

  function DigitValue(c: char): (d: nat)
    requires IsDigit(c)
    ensures d < 10
  {
    (c as int) - ('0' as int)
  }

  function DigitChar(d: nat): (c: char)
    requires d < 10
    ensures IsDigit(c) && DigitValue(c) == d
  {
    ((d + '0' as int) as char)
  }

  /** The value of a run of decimal digits, most significant first. */
  function DigitsValue(s: string): nat
    requires AllDigits(s)
  {
    if s == [] then 0 else DigitsValue(s[..|s| - 1]) * 10 + DigitValue(s[|s| - 1])
  }

  /** Canonical decimal spelling of a natural number, no leading zeros. */
  function Decimal(n: nat): (s: string)
    ensures |s| >= 1
  {
    if n < 10 then [DigitChar(n)] else Decimal(n / 10) + [DigitChar(n % 10)]
  }

  /**
   * `%d` formatting of an integer: a minus sign exactly for negative values,
   * then the digits of the magnitude.
   */
  function FormatInt(n: int): (r: string)
    ensures |r| >= 1
    ensures r[0] == '-' <==> n < 0
    ensures n >= 0 ==> AllDigits(r) && DigitsValue(r) == n
    ensures n < 0 ==> AllDigits(r[1..]) && DigitsValue(r[1..]) == -n
  {
    if n < 0 then
      DecimalRoundTrip(-n);
      var r := "-" + Decimal(-n);
      assert r[1..] == Decimal(-n);
      r
    else
      DecimalRoundTrip(n);
      Decimal(n)
  }

  /**
   * `strconv.ParseInt(s, 10, 64)`: an optional `+` or `-`, then one or more
   * decimal digits; the value must fit in 64 bits. `strconv.Atoi` accepts
   * exactly the same strings on a 64-bit platform. Anything else is an error,
   * here `None`.
   */
  function ParseInt64(s: string): (r: Option<int>)
    ensures r.Some? ==> MinInt64 <= r.value <= MaxInt64
    ensures s == [] ==> r.None?
  {
    if s == [] then None
    else
      var signed := s[0] == '+' || s[0] == '-';
      var digits := if signed then s[1..] else s;
      if digits == [] || !AllDigits(digits) then None
      else
        var v: int := if s[0] == '-' then -(DigitsValue(digits) as int) else DigitsValue(digits);
        if MinInt64 <= v <= MaxInt64 then Some(v) else None
  }

  /** Decimal spells only digits and reads back as the number it spells. */
  lemma {:induction false} DecimalRoundTrip(n: nat)
    ensures AllDigits(Decimal(n))
    ensures DigitsValue(Decimal(n)) == n
  {
    if n >= 10 {
      DecimalRoundTrip(n / 10);
      var s := Decimal(n);
      assert s[..|s| - 1] == Decimal(n / 10);
    }
  }

  /** Every value `%d` prints is parsed back to itself. */
  lemma ParseFormatRoundTrip(n: int)
    requires MinInt64 <= n <= MaxInt64
    ensures ParseInt64(FormatInt(n)) == Some(n)
  {
    if n < 0 {
      DecimalRoundTrip(-n);
      assert FormatInt(n)[1..] == Decimal(-n);
    } else {
      DecimalRoundTrip(n);
    }
  }

  /** A digit string with a leading `+` means the same number as without it. */
  lemma ParsePlusSign(n: nat)
    requires n <= MaxInt64
    ensures ParseInt64("+" + Decimal(n)) == Some(n)
  {
    DecimalRoundTrip(n);
    assert ("+" + Decimal(n))[1..] == Decimal(n);
  }

  /** A string holding any character other than a sign or a digit never parses. */
  lemma NonNumericRejected(s: string, i: nat)
    requires i < |s| && !IsDigit(s[i]) && s[i] != '+' && s[i] != '-'
    ensures ParseInt64(s) == None
  {
    if s[0] == '+' || s[0] == '-' {
      assert s[1..][i - 1] == s[i];
    }
  }
}
