/** Decimal rendering of integers (Go's `strconv.Itoa`) together with the
    parser that undoes it (the accepting part of `strconv.Atoi`). */
module Decimal {
  import opened Wrappers

  predicate IsDigit(c: char) {
    '0' <= c <= '9'
  }

  predicate AllDigits(s: string) {
    forall i :: 0 <= i < |s| ==> IsDigit(s[i])
  }

  function DigitChar(d: nat): (c: char)
    requires d < 10
    ensures IsDigit(c)
    ensures DigitValue(c) == d
  {
    ('0' as int + d) as char
  }

  function DigitValue(c: char): (d: nat)
    requires IsDigit(c)
    ensures d < 10
  {
    c as int - '0' as int
  }

  /** The digits of a natural number, most significant first, with no
      leading zero except for the number zero itself. */
  function NatDigits(n: nat): (s: string)
    ensures |s| > 0
    ensures AllDigits(s)
    ensures s[0] == '0' <==> n == 0
    decreases n
  {
    if n < 10 then [DigitChar(n)]
    else NatDigits(n / 10) + [DigitChar(n % 10)]
  }

  /** `strconv.Itoa`: a leading '-' for negative numbers, then the digits of
      the magnitude. */
  function Itoa(n: int): (s: string)
    ensures |s| > 0
    ensures s[0] == '-' <==> n < 0
  {
    if n < 0 then "-" + NatDigits(-n) else NatDigits(n)
  }

  /** The value of a string of decimal digits, read left to right. */
  function DigitsValue(s: string): nat
    requires AllDigits(s)
  {
    if |s| == 0 then 0
    else DigitsValue(s[..|s| - 1]) * 10 + DigitValue(s[|s| - 1])
  }

  /** The strings `strconv.Atoi` accepts, without its 64-bit range check:
      an optional sign followed by at least one digit. */
  function ParseDecimal(s: string): (r: Option<int>)
    ensures r.Some? ==> |s| > 0
  {
    if |s| == 0 then None
    else if s[0] == '-' || s[0] == '+' then
      var digits := s[1..];
      if |digits| > 0 && AllDigits(digits) then
        var magnitude: int := DigitsValue(digits);
        Some(if s[0] == '-' then -magnitude else magnitude)
      else None
    else if AllDigits(s) then Some(DigitsValue(s))
    else None
  }

  /** Reading back the digits of `n` gives `n`. */
  lemma {:induction false} NatDigitsValue(n: nat)
    ensures DigitsValue(NatDigits(n)) == n
    decreases n
  {
    if n >= 10 {
      var prefix := NatDigits(n / 10);
      var s := prefix + [DigitChar(n % 10)];
      assert s[..|s| - 1] == prefix;
      NatDigitsValue(n / 10);
    }
  }

  /** Round trip: parsing the rendering of any integer yields that integer. */
  lemma {:induction false} ItoaRoundTrip(n: int)
    ensures ParseDecimal(Itoa(n)) == Some(n)
  {
    var s := Itoa(n);
    if n < 0 {
      var digits := NatDigits(-n);
      assert s == "-" + digits;
      assert s[1..] == digits;
      NatDigitsValue(-n);
      assert ParseDecimal(s) == Some(-(DigitsValue(digits) as int));
    } else {
      assert s == NatDigits(n);
      assert IsDigit(s[0]);
      NatDigitsValue(n);
      assert ParseDecimal(s) == Some(DigitsValue(s));
    }
  }

  /** Distinct integers have distinct renderings. */
  lemma {:induction false} ItoaInjective(a: int, b: int)
    requires Itoa(a) == Itoa(b)
    ensures a == b
  {
    ItoaRoundTrip(a);
    ItoaRoundTrip(b);
  }

  /** Every rendering is canonical: an optional '-', then digits without a
      leading zero, and never "-0". */
  lemma {:induction false} ItoaCanonical(n: int)
    ensures var s := Itoa(n);
      if n < 0 then |s| > 1 && AllDigits(s[1..]) && s[1] != '0'
      else AllDigits(s) && (s[0] == '0' ==> s == "0")
  {
    var s := Itoa(n);
    if n < 0 {
      assert s[1..] == NatDigits(-n);
    } else if s[0] == '0' {
      assert n == 0;
    }
  }
}
