/**
 * Decimal text of integers, as produced by Go's strconv.Itoa, together with
 * a reader for such text that serves as its inverse.
 */
module Decimal {
  import opened Wrappers

  predicate IsDigit(c: char) {
    '0' <= c <= '9'
  }

  predicate AllDigits(s: string) {
    forall k :: 0 <= k < |s| ==> IsDigit(s[k])
  }

  /** A numeral as strconv.Itoa writes it: an optional '-', then digits with
      no leading zero, and "0" (never "-0") for zero. */
  predicate IsCanonical(s: string) {
    var digits := if |s| > 0 && s[0] == '-' then s[1..] else s;
    && |digits| >= 1
    && AllDigits(digits)
    && (digits[0] == '0' ==> s == "0")
  }

  function DigitChar(d: nat): (c: char)
    requires d < 10
    ensures IsDigit(c) && c as int - '0' as int == d
  {
    (d + '0' as int) as char
  }

  /** The decimal digits of n, most significant first. */
  function NatDigits(n: nat): (s: string)
    ensures |s| >= 1 && AllDigits(s)
    ensures s[0] == '0' <==> n == 0
    decreases n
  {
    if n < 10 then [DigitChar(n)] else NatDigits(n / 10) + [DigitChar(n % 10)]
  }

  /** strconv.Itoa: the decimal form of i, with a '-' in front when i is negative. */
  function Itoa(i: int): (s: string)
    ensures IsCanonical(s)
    ensures s[0] == '-' <==> i < 0
  {
    if i < 0 then "-" + NatDigits(-i) else NatDigits(i)
  }

  /** The value of a string of digits, most significant first. */
  function DigitsValue(s: string): nat
    requires AllDigits(s)
    decreases |s|
  {
    if s == [] then 0 else 10 * DigitsValue(s[..|s| - 1]) + (s[|s| - 1] as int - '0' as int)
  }

  /** Reads a decimal integer: an optional sign ('-' or '+') followed by one or
      more digits; anything else is rejected. */
  function ParseInt(s: string): Option<int> {
    if |s| > 0 && (s[0] == '-' || s[0] == '+') then
      var digits := s[1..];
      if |digits| > 0 && AllDigits(digits) then
        var magnitude: int := DigitsValue(digits);
        Some(if s[0] == '-' then -magnitude else magnitude)
      else
        None
    else if |s| > 0 && AllDigits(s) then
      Some(DigitsValue(s))
    else
      None
  }

  lemma {:induction false} NatDigitsValue(n: nat)
    ensures DigitsValue(NatDigits(n)) == n
    decreases n
  {
    if n >= 10 {
      var s := NatDigits(n);
      assert s[..|s| - 1] == NatDigits(n / 10);
      NatDigitsValue(n / 10);
    }
  }

  lemma ParseUnsigned(d: string)
    requires |d| >= 1 && AllDigits(d)
    ensures ParseInt(d) == Some(DigitsValue(d) as int)
  {
    assert IsDigit(d[0]);
  }

  lemma ParseNegative(d: string)
    requires |d| >= 1 && AllDigits(d)
    ensures ParseInt("-" + d) == Some(-(DigitsValue(d) as int))
  {
    assert ("-" + d)[1..] == d;
  }

  /** Reading back what Itoa writes gives the original integer. */
  lemma ItoaRoundTrip(i: int)
    ensures ParseInt(Itoa(i)) == Some(i)
  {
    if i < 0 {
      var d := NatDigits(-i);
      assert Itoa(i) == "-" + d;
      NatDigitsValue(-i);
      ParseNegative(d);
    } else {
      var d := NatDigits(i);
      assert Itoa(i) == d;
      NatDigitsValue(i);
      ParseUnsigned(d);
    }
  }

  /** Distinct integers have distinct decimal forms. */
  lemma ItoaInjective(i: int, j: int)
    requires Itoa(i) == Itoa(j)
    ensures i == j
  {
    ItoaRoundTrip(i);
    ItoaRoundTrip(j);
  }

  /** Every character of Itoa's output is a digit, except a leading '-'; in
      particular it holds no '/', '?' or space. */
  lemma ItoaCharacters(i: int, k: nat)
    requires k < |Itoa(i)|
    ensures IsDigit(Itoa(i)[k]) || (k == 0 && Itoa(i)[k] == '-')
  {
  }

  /** Digits that do not start with '0' have a positive value. */
  lemma {:induction false} LeadingNonZeroPositive(s: string)
    requires |s| >= 1 && AllDigits(s) && s[0] != '0'
    ensures DigitsValue(s) >= 1
    decreases |s|
  {
    if |s| > 1 {
      LeadingNonZeroPositive(s[..|s| - 1]);
    }
  }

  /** Digits without a leading zero (or "0" itself) are exactly the digits
      NatDigits writes for their value. */
  lemma {:induction false} CanonicalDigitsUnique(s: string)
    requires |s| >= 1 && AllDigits(s) && (s[0] == '0' ==> s == "0")
    ensures NatDigits(DigitsValue(s)) == s
    decreases |s|
  {
    var n := DigitsValue(s);
    if |s| > 1 {
      var init := s[..|s| - 1];
      LeadingNonZeroPositive(init);
      CanonicalDigitsUnique(init);
      assert n / 10 == DigitsValue(init) && n % 10 == s[|s| - 1] as int - '0' as int;
      assert s == init + [s[|s| - 1]];
    }
  }

  /** A canonical numeral is the one Itoa writes for the value it reads as: no
      other text (leading zeros, a '+', "-0") reads back through it. */
  lemma ParseCanonical(t: string, i: int)
    requires IsCanonical(t) && ParseInt(t) == Some(i)
    ensures t == Itoa(i)
  {
    if t[0] == '-' {
      var digits := t[1..];
      assert digits[0] != '0';
      LeadingNonZeroPositive(digits);
      CanonicalDigitsUnique(digits);
      assert t == "-" + digits;
    } else {
      assert IsDigit(t[0]);
      CanonicalDigitsUnique(t);
    }
  }
}
