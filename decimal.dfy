/** Decimal rendering of integers, as PHP's `(string)` cast produces it for an
    `int`: an optional leading '-', then the digits of the magnitude with no
    leading zeros ("0" for zero). A parser for exactly those strings is the
    partner that shows the rendering loses nothing. */
module Decimal {

  import opened Wrappers

  predicate IsDigit(c: char) {
    '0' <= c <= '9'
  }

  predicate AllDigits(s: string) {
    forall i :: 0 <= i < |s| ==> IsDigit(s[i])
  }

  function DigitChar(d: nat): (c: char)
    requires d < 10
    ensures IsDigit(c) && DigitValue(c) == d
  {
    ('0' as int + d) as char
  }

  function DigitValue(c: char): nat
    requires IsDigit(c)
  {
    c as int - '0' as int
  }

  /** The value of a string of digits, most significant digit first. */
  function DigitsValue(s: string): nat
    requires AllDigits(s)
  {
    if s == [] then 0 else DigitsValue(s[..|s| - 1]) * 10 + DigitValue(s[|s| - 1])
  }

  /** A non-empty run of digits without a superfluous leading zero. */
  predicate IsCanonicalNat(s: string) {
    |s| >= 1 && AllDigits(s) && (s[0] == '0' ==> |s| == 1)
  }

  /** What PHP prints for some int: a canonical natural number, or '-'
      followed by a canonical natural number other than zero. */
  predicate IsCanonicalInt(s: string) {
    IsCanonicalNat(s) || (|s| >= 2 && s[0] == '-' && IsCanonicalNat(s[1..]) && s[1] != '0')
  }

  function Pow10(k: nat): (p: nat)
    ensures p >= 1
  {
    if k == 0 then 1 else 10 * Pow10(k - 1)
  }

  /** Decimal digits of a natural number. */
  function NatToDecimal(n: nat): (r: string)
    ensures IsCanonicalNat(r)
    ensures DigitsValue(r) == n
    decreases n
  {
    if n < 10 then [DigitChar(n)]
    else
      var prefix := NatToDecimal(n / 10);
      var r := prefix + [DigitChar(n % 10)];
      assert r[..|r| - 1] == prefix;
      assert prefix[0] != '0';
      r
  }

  /** The decimal rendering of any integer, negative ones included. */
  function IntToDecimal(i: int): (r: string)
    ensures IsCanonicalInt(r)
    ensures ParseDecimal(r) == Some(i)
  {
    if i < 0 then
      var digits := NatToDecimal(-i);
      var r := "-" + digits;
      assert r[1..] == digits;
      assert digits[0] != '0';
      r
    else
      NatToDecimal(i)
  }

  /** Reads back exactly the strings that IntToDecimal can produce and
      rejects everything else. */
  function ParseDecimal(s: string): (r: Option<int>)
    ensures r.Some? <==> IsCanonicalInt(s)
  {
    if IsCanonicalNat(s) then Some(DigitsValue(s))
    else if IsCanonicalInt(s) then
      Some(-(DigitsValue(s[1..]) as int))
    else None
  }

  /** A canonical string whose first digit is not '0' denotes at least 1. */
  lemma {:induction false} NonZeroLead(s: string)
    requires IsCanonicalNat(s) && s[0] != '0'
    ensures DigitsValue(s) >= 1
  {
    if |s| > 1 {
      NonZeroLead(s[..|s| - 1]);
    }
  }

  /** Rendering the value of a canonical string gives that string back. */
  lemma {:induction false} NatToDecimalOfValue(s: string)
    requires IsCanonicalNat(s)
    ensures NatToDecimal(DigitsValue(s)) == s
    decreases |s|
  {
    if |s| > 1 {
      var prefix := s[..|s| - 1];
      assert prefix[0] == s[0];
      NonZeroLead(prefix);
      NatToDecimalOfValue(prefix);
      assert s == prefix + [s[|s| - 1]];
    }
  }

  /** The other direction of the round trip: every string the parser accepts
      is the rendering of the integer it denotes. */
  lemma ParseThenRender(s: string)
    requires ParseDecimal(s).Some?
    ensures IntToDecimal(ParseDecimal(s).value) == s
  {
    if IsCanonicalNat(s) {
      NatToDecimalOfValue(s);
    } else {
      var digits := s[1..];
      NonZeroLead(digits);
      NatToDecimalOfValue(digits);
      assert s == "-" + digits;
    }
  }

  /** Distinct integers render differently. */
  lemma RenderingIsInjective(i: int, j: int)
    requires IntToDecimal(i) == IntToDecimal(j)
    ensures i == j
  {
  }

  /** A number has more than k digits exactly when it reaches 10^k. */
  lemma {:induction false} LengthAbove(n: nat, k: nat)
    requires k >= 1
    ensures |NatToDecimal(n)| > k <==> n >= Pow10(k)
    decreases k
  {
    if k > 1 && n >= 10 {
      LengthAbove(n / 10, k - 1);
      assert n / 10 >= Pow10(k - 1) <==> n >= Pow10(k);
    }
  }

  /** A natural number renders with exactly three characters iff it lies in
      [100, 1000), and then its first character is its hundreds digit. */
  lemma ThreeDigits(n: nat)
    ensures |NatToDecimal(n)| == 3 <==> 100 <= n < 1000
    ensures 100 <= n < 1000 ==> NatToDecimal(n)[0] == DigitChar(n / 100)
  {
    LengthAbove(n, 2);
    LengthAbove(n, 3);
    if 100 <= n < 1000 {
      assert NatToDecimal(n) == NatToDecimal(n / 10) + [DigitChar(n % 10)];
      assert NatToDecimal(n / 10) == NatToDecimal(n / 100) + [DigitChar(n / 10 % 10)];
    }
  }
}
