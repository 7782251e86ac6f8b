/** Decimal text of integers as the table layer writes and reads it:
    `ostream << n` on the way out and `istream >> n` on the way back. */
module Decimal {
  import opened Common

  const MinInt32: int := -0x8000_0000
  const MaxInt32: int := 0x7FFF_FFFF
  const MinInt64: int := -0x8000_0000_0000_0000
  const MaxInt64: int := 0x7FFF_FFFF_FFFF_FFFF

  /** `int32_t` */
  type Int32 = n: int | -0x8000_0000 <= n <= 0x7FFF_FFFF
  /** `int64_t` */
  type Int64 = n: int | -0x8000_0000_0000_0000 <= n <= 0x7FFF_FFFF_FFFF_FFFF

  predicate IsDigit(c: char)
  {
    '0' <= c <= '9'
  }

  predicate AllDigits(s: string)
  {
    forall i :: 0 <= i < |s| ==> IsDigit(s[i])
  }

  function DigitChar(d: nat): (c: char)
    requires d < 10
    ensures IsDigit(c)
  {
    ('0' as int + d) as char
  }

  function DigitValue(c: char): (d: nat)
    requires IsDigit(c)
    ensures d < 10
  {
    c as int - '0' as int
  }

  /** The digits of a natural number, most significant first, without
      leading zeros (a single "0" for zero). */
  function Digits(n: nat): (r: string)
    ensures |r| > 0 && AllDigits(r)
    decreases n
  {
    if n < 10 then [DigitChar(n)] else Digits(n / 10) + [DigitChar(n % 10)]
  }

  /** The number a run of decimal digits denotes. */
  function DigitsValue(s: string): nat
    requires AllDigits(s)
  {
    if s == [] then 0 else DigitsValue(s[..|s| - 1]) * 10 + DigitValue(s[|s| - 1])
  }

  lemma {:induction false} DigitsValueOfDigits(n: nat)
    ensures DigitsValue(Digits(n)) == n
    decreases n
  {
    if n >= 10 {
      var s := Digits(n);
      assert s[..|s| - 1] == Digits(n / 10);
      DigitsValueOfDigits(n / 10);
    }
  }

  /** What `ostream << n` writes for a signed integer: a minus sign for a
      negative value, then the digits of its magnitude. */
  function DecimalText(n: int): (r: string)
    ensures |r| > 0
    ensures r[0] == '-' <==> n < 0
    ensures n >= 0 ==> AllDigits(r)
    ensures n < 0 ==> AllDigits(r[1..]) && |r| > 1
  {
    if n < 0 then "-" + Digits(-n) else Digits(n)
  }

  /** The white space `istream >>` skips before a number. */
  predicate IsSpace(c: char)
  {
    c == ' ' || 9 <= c as int <= 13
  }

  function SkipSpace(s: string): (r: string)
    ensures |r| <= |s| && r == s[|s| - |r|..]
    ensures r == [] || !IsSpace(r[0])
  {
    if s != [] && IsSpace(s[0]) then SkipSpace(s[1..]) else s
  }

  /** The longest prefix of `s` made of decimal digits. */
  function DigitPrefix(s: string): (r: string)
    ensures |r| <= |s| && r == s[..|r|] && AllDigits(r)
    ensures |r| < |s| ==> !IsDigit(s[|r|])
  {
    if s != [] && IsDigit(s[0]) then [s[0]] + DigitPrefix(s[1..]) else []
  }

  lemma {:induction false} DigitPrefixOfDigits(s: string)
    requires AllDigits(s)
    ensures DigitPrefix(s) == s
  {
    if s != [] {
      DigitPrefixOfDigits(s[1..]);
    }
  }

  function Clamp(v: int, lo: int, hi: int): (r: int)
    requires lo <= hi
    ensures lo <= r <= hi
    ensures lo <= v <= hi ==> r == v
  {
    if v < lo then lo else if v > hi then hi else v
  }

  /** What `istream >> x` stores into a signed integer `x` whose range is
      [lo, hi]. The stream's sentry skips leading white space; when nothing
      is left it fails and nothing is stored (None). Otherwise C++11
      `num_get` reads an optional sign and then the longest run of digits:
      text with no digits there stores 0, and a value out of range is
      clamped to the nearest bound. Whatever follows the digits is
      ignored. */
  function ExtractInteger(s: string, lo: int, hi: int): (r: Option<int>)
    requires lo <= 0 <= hi
    ensures r.None? <==> SkipSpace(s) == []
    ensures r.Some? ==> lo <= r.value <= hi
  {
    var t := SkipSpace(s);
    if t == [] then None
    else
      var signed := t[0] == '-' || t[0] == '+';
      var digits := DigitPrefix(if signed then t[1..] else t);
      var magnitude: int := if digits == [] then 0 else DigitsValue(digits);
      if digits == [] then Some(0)
      else Some(Clamp(if signed && t[0] == '-' then -magnitude else magnitude, lo, hi))
  }

  /** Reading back what was written gives the same integer, for every value
      of the range. */
  lemma DecimalRoundTrip(n: int, lo: int, hi: int)
    requires lo <= 0 <= hi && lo <= n <= hi
    ensures ExtractInteger(DecimalText(n), lo, hi) == Some(n)
  {
    DecimalPrefixRoundTrip(n, [], lo, hi);
    assert DecimalText(n) + [] == DecimalText(n);
  }

  /** Text that only starts with a number is read as that number. */
  lemma DecimalPrefixRoundTrip(n: int, rest: string, lo: int, hi: int)
    requires lo <= 0 <= hi && lo <= n <= hi
    requires rest == [] || !IsDigit(rest[0])
    ensures ExtractInteger(DecimalText(n) + rest, lo, hi) == Some(n)
  {
    if n < 0 {
      NegativeRoundTrip(n, rest, lo, hi);
    } else {
      NonNegativeRoundTrip(n, rest, lo, hi);
    }
  }

  lemma NegativeRoundTrip(n: int, rest: string, lo: int, hi: int)
    requires lo <= n < 0 <= hi
    requires rest == [] || !IsDigit(rest[0])
    ensures ExtractInteger(DecimalText(n) + rest, lo, hi) == Some(n)
  {
    var d := Digits(-n);
    assert DigitsValue(d) == -n by { DigitsValueOfDigits(-n); }
    assert DecimalText(n) + rest == ['-'] + (d + rest);
    ExtractNegative(d, rest, lo, hi);
  }

  lemma NonNegativeRoundTrip(n: int, rest: string, lo: int, hi: int)
    requires lo <= 0 <= n <= hi
    requires rest == [] || !IsDigit(rest[0])
    ensures ExtractInteger(DecimalText(n) + rest, lo, hi) == Some(n)
  {
    var d := Digits(n);
    assert DigitsValue(d) == n by { DigitsValueOfDigits(n); }
    assert DecimalText(n) == d;
    ExtractUnsigned(d, rest, lo, hi);
  }

  /** Digits at the start of the text, in range, are read as their value. */
  lemma ExtractUnsigned(d: string, rest: string, lo: int, hi: int)
    requires lo <= 0 <= hi && d != [] && AllDigits(d) && DigitsValue(d) <= hi
    requires rest == [] || !IsDigit(rest[0])
    ensures ExtractInteger(d + rest, lo, hi) == Some(DigitsValue(d) as int)
  {
    var s := d + rest;
    assert s[0] == d[0];
    assert SkipSpace(s) == s by { assert !IsSpace(s[0]); }
    assert DigitPrefix(s) == d by { DigitPrefixOfDigitsThen(d, rest); }
  }

  /** A minus sign and then digits, in range, are read as the negated
      value. */
  lemma ExtractNegative(d: string, rest: string, lo: int, hi: int)
    requires lo <= 0 <= hi && d != [] && AllDigits(d) && lo + DigitsValue(d) <= 0
    requires rest == [] || !IsDigit(rest[0])
    ensures ExtractInteger(['-'] + (d + rest), lo, hi) == Some(-(DigitsValue(d) as int))
  {
    var s := ['-'] + (d + rest);
    assert SkipSpace(s) == s by { assert s[0] == '-'; }
    assert DigitPrefix(s[1..]) == d by {
      assert s[1..] == d + rest;
      DigitPrefixOfDigitsThen(d, rest);
    }
  }

  lemma {:induction false} DigitPrefixOfDigitsThen(d: string, rest: string)
    requires AllDigits(d)
    requires rest == [] || !IsDigit(rest[0])
    ensures DigitPrefix(d + rest) == d
  {
    if d != [] {
      assert (d + rest)[1..] == d[1..] + rest;
      DigitPrefixOfDigitsThen(d[1..], rest);
    } else {
      assert d + rest == rest;
    }
  }
}
