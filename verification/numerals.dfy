/**
 * The JDK's decimal conversions the cluster code relies on: Integer.parseInt and
 * Long.parseLong (radix 10) turn the port and interval constants into numbers, and
 * String.valueOf(int) turns a random int into a server id.
 */
module Numerals {
  import opened Util

  const IntMin: int := -0x8000_0000
  const IntMax: int := 0x7FFF_FFFF
  const LongMin: int := -0x8000_0000_0000_0000
  const LongMax: int := 0x7FFF_FFFF_FFFF_FFFF

  predicate IsDigit(c: char) { '0' <= c <= '9' }

  predicate AllDigits(s: string) { forall i :: 0 <= i < |s| ==> IsDigit(s[i]) }

  function DigitValue(c: char): (d: nat)
    requires IsDigit(c)
    ensures d < 10
  {
    c as int - '0' as int
  }

  function DigitChar(d: nat): (c: char)
    requires d < 10
    ensures IsDigit(c) && DigitValue(c) == d
  {
    ('0' as int + d) as char
  }

  /** The number a string of decimal digits denotes, most significant digit first. */
  function DigitsValue(s: string): nat
    requires AllDigits(s)
  {
    if |s| == 0 then 0 else DigitsValue(s[..|s| - 1]) * 10 + DigitValue(s[|s| - 1])
  }

  /**
   * Radix-10 parsing as Integer.parseInt and Long.parseLong do it: an optional sign,
   * at least one digit, nothing else, and a value inside [lo, hi]; None stands for the
   * NumberFormatException.
   */
  function ParseDecimal(s: string, lo: int, hi: int): (r: Option<int>)
    ensures r.Some? ==> lo <= r.value <= hi
    ensures r.Some? ==> |s| > 0 && (IsDigit(s[0]) || s[0] == '-' || s[0] == '+')
  {
    if |s| == 0 then None
    else
      var signed := s[0] == '-' || s[0] == '+';
      var digits := if signed then s[1..] else s;
      if |digits| == 0 || !AllDigits(digits) then None
      else
        var v: int := if s[0] == '-' then 0 - DigitsValue(digits) else DigitsValue(digits);
        if lo <= v <= hi then Some(v) else None
  }

  function ParseInt(s: string): Option<int> { ParseDecimal(s, IntMin, IntMax) }

  function ParseLong(s: string): Option<int> { ParseDecimal(s, LongMin, LongMax) }

  /** The shortest decimal numeral of n (no leading zero). */
  function NatToDigits(n: nat): (s: string)
    ensures |s| > 0 && AllDigits(s)
    ensures |s| > 1 ==> s[0] != '0'
  {
    (if n < 10 then "" else NatToDigits(n / 10)) + [DigitChar(n % 10)]
  }

  /** String.valueOf(int): a minus sign before the digits of a negative number. */
  function IntToString(n: int): string
  {
    if n < 0 then "-" + NatToDigits(-n) else NatToDigits(n)
  }

  lemma {:induction false} DigitsValueOfNatToDigits(n: nat)
    ensures DigitsValue(NatToDigits(n)) == n
  {
    var s := NatToDigits(n);
    var init := if n < 10 then "" else NatToDigits(n / 10);
    assert s == init + [DigitChar(n % 10)];
    assert s[..|s| - 1] == init;
    assert DigitsValue(s) == DigitsValue(init) * 10 + n % 10;
    if n >= 10 {
      DigitsValueOfNatToDigits(n / 10);
      assert DigitsValue(init) == n / 10;
    } else {
      assert DigitsValue(init) == 0;
    }
  }

  /** Parsing undoes printing for every number in the accepted range. */
  lemma ParseIntToString(n: int, lo: int, hi: int)
    requires lo <= n <= hi
    ensures ParseDecimal(IntToString(n), lo, hi) == Some(n)
  {
    if n < 0 {
      assert IntToString(n) == "-" + NatToDigits(-n);
      ParseNegativeToString(-n, lo, hi);
    } else {
      assert IntToString(n) == NatToDigits(n);
      ParseNatToString(n, lo, hi);
    }
  }

  lemma ParseNegativeToString(m: nat, lo: int, hi: int)
    requires m > 0 && lo <= 0 - m <= hi
    ensures ParseDecimal("-" + NatToDigits(m), lo, hi) == Some(0 - m)
  {
    var d := NatToDigits(m);
    DigitsValueOfNatToDigits(m);
    ParseNegative(d, lo, hi);
    assert ParseDecimal("-" + d, lo, hi) == Some(0 - DigitsValue(d));
  }

  lemma ParseNatToString(m: nat, lo: int, hi: int)
    requires lo <= m <= hi
    ensures ParseDecimal(NatToDigits(m), lo, hi) == Some(m)
  {
    DigitsValueOfNatToDigits(m);
    ParseUnsigned(NatToDigits(m), lo, hi);
  }

  lemma ParseNegative(d: string, lo: int, hi: int)
    requires |d| > 0 && AllDigits(d)
    ensures var v := 0 - DigitsValue(d);
      ParseDecimal("-" + d, lo, hi) == if lo <= v <= hi then Some(v) else None
  {
    var s := "-" + d;
    assert s[0] == '-' && s[1..] == d;
  }

  lemma ParseUnsigned(d: string, lo: int, hi: int)
    requires |d| > 0 && AllDigits(d)
    ensures var v := DigitsValue(d);
      ParseDecimal(d, lo, hi) == if lo <= v <= hi then Some(v) else None
  {
    assert IsDigit(d[0]);
  }

  lemma DigitsValueSnoc(s: string, c: char)
    requires AllDigits(s) && IsDigit(c)
    ensures AllDigits(s + [c]) && DigitsValue(s + [c]) == DigitsValue(s) * 10 + DigitValue(c)
  {
    assert (s + [c])[..|s|] == s;
  }

  /** Distinct numbers print differently, so distinct random ints give distinct ids. */
  lemma IntToStringInjective(a: int, b: int)
    requires IntToString(a) == IntToString(b)
    ensures a == b
  {
    var lo, hi := if a < b then a else b, if a < b then b else a;
    ParseIntToString(a, lo, hi);
    ParseIntToString(b, lo, hi);
  }
}
