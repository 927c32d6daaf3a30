/**
 * Java's decimal number parsing as used when a downloaded Sone document is read
 * (`Long.parseLong` for times, `Numbers.safeParseInteger` for birth dates), the
 * decimal rendering of a `long` that produces those strings, and Java's 32-bit
 * `int` arithmetic where the source multiplies two `int`s.
 */
module Numbers {
  import opened Optional

  const LONG_MIN: int := -0x8000_0000_0000_0000
  const LONG_MAX: int := 0x7FFF_FFFF_FFFF_FFFF
  const INT_MIN: int := -0x8000_0000
  const INT_MAX: int := 0x7FFF_FFFF

  predicate IsDigit(c: char) {
    '0' <= c <= '9'
  }

  predicate AllDigits(s: string) {
    forall i :: 0 <= i < |s| ==> IsDigit(s[i])
  }

  function DigitValue(c: char): nat
    requires IsDigit(c)
  {
    (c as int) - ('0' as int)
  }

  function DigitChar(d: nat): char
    requires d < 10
  {
    (('0' as int) + d) as char
  }

  /** The value of a string of decimal digits, most significant digit first. */
  function DigitsValue(s: string): nat
    requires AllDigits(s)
  {
    if s == [] then 0 else DigitsValue(s[..|s| - 1]) * 10 + DigitValue(s[|s| - 1])
  }

  /**
   * Java's `parseLong`/`parseInt` in radix 10 for a range [min, max]: an optional
   * leading '-' or '+', then at least one digit, and the value must lie in range;
   * anything else is a `NumberFormatException`, here `None`.
   */
  function ParseSigned(s: string, min: int, max: int): (r: Option<int>)
    ensures r.Some? ==> min <= r.value <= max
    ensures r.Some? ==> |s| > 0 && (r.value < 0 ==> s[0] == '-')
  {
    var negative := |s| > 0 && s[0] == '-';
    var digits := if |s| > 0 && (s[0] == '-' || s[0] == '+') then s[1..] else s;
    if digits == [] || !AllDigits(digits) then None
    else
      var magnitude: int := DigitsValue(digits);
      var v := if negative then -magnitude else magnitude;
      if min <= v <= max then Some(v) else None
  }

  /** `Long.parseLong(s)`. */
  function ParseLong(s: string): (r: Option<int>)
    ensures r.Some? ==> LONG_MIN <= r.value <= LONG_MAX
  {
    ParseSigned(s, LONG_MIN, LONG_MAX)
  }

  /** `Numbers.safeParseInteger(s)`: `Integer.parseInt`, with null for a missing or unparsable string. */
  function SafeParseInteger(s: Option<string>): (r: Option<int>)
    ensures r.Some? ==> s.Some? && INT_MIN <= r.value <= INT_MAX
    ensures s.Some? ==> r == ParseSigned(s.value, INT_MIN, INT_MAX)
  {
    match s
    case None => None
    case Some(text) => ParseSigned(text, INT_MIN, INT_MAX)
  }

  /** The decimal digits of a natural number, without leading zeros. */
  function Digits(n: nat): (s: string)
    ensures |s| > 0 && AllDigits(s)
  {
    if n < 10 then [DigitChar(n)] else Digits(n / 10) + [DigitChar(n % 10)]
  }

  /** `Long.toString(n)`: how a time is written into a published Sone document. */
  function FormatLong(n: int): string {
    if n < 0 then "-" + Digits(-n) else Digits(n)
  }

  lemma {:induction false} DigitsRoundTrip(n: nat)
    ensures DigitsValue(Digits(n)) == n
  {
    if n >= 10 {
      var s := Digits(n);
      assert s[..|s| - 1] == Digits(n / 10);
      DigitsRoundTrip(n / 10);
    }
  }

  /** A number in range, written in decimal, is read back unchanged by `ParseSigned`. */
  lemma ParseFormatSigned(n: int, min: int, max: int)
    requires min <= n <= max
    ensures ParseSigned(FormatLong(n), min, max) == Some(n)
  {
    var s := FormatLong(n);
    if n < 0 {
      assert s[0] == '-' && s[1..] == Digits(-n);
      DigitsRoundTrip(-n);
    } else {
      assert s == Digits(n) && IsDigit(s[0]);
      DigitsRoundTrip(n);
    }
  }

  /** A time rendered by `FormatLong` is read back unchanged by `ParseLong`. */
  lemma ParseFormatLong(n: int)
    requires LONG_MIN <= n <= LONG_MAX
    ensures ParseLong(FormatLong(n)) == Some(n)
  {
    ParseFormatSigned(n, LONG_MIN, LONG_MAX);
  }

  /** Every `int` written in decimal is read back by `safeParseInteger`; a missing text gives null. */
  lemma SafeParseFormatInteger(n: int)
    requires INT_MIN <= n <= INT_MAX
    ensures SafeParseInteger(Some(FormatLong(n))) == Some(n)
    ensures SafeParseInteger(None) == None
  {
    ParseFormatSigned(n, INT_MIN, INT_MAX);
  }

  /** A string holding anything but a sign and digits is not a number. */
  lemma NonDigitRejected(s: string, i: nat)
    requires 0 < i < |s| && !IsDigit(s[i])
    ensures ParseLong(s) == None
  {
    var digits := if s[0] == '-' || s[0] == '+' then s[1..] else s;
    if s[0] == '-' || s[0] == '+' {
      assert digits[i - 1] == s[i];
    } else {
      assert digits[i] == s[i];
    }
  }

  /** Java's 32-bit `int` overflow: the two's-complement value of `x` modulo 2^32. */
  function Int32(x: int): (r: int)
    ensures INT_MIN <= r <= INT_MAX
    ensures INT_MIN <= x <= INT_MAX ==> r == x
    ensures (r - x) % 0x1_0000_0000 == 0
  {
    var m := x % 0x1_0000_0000;
    if m > INT_MAX then m - 0x1_0000_0000 else m
  }

  /** Java's 64-bit `long` overflow: the two's-complement value of `x` modulo 2^64. */
  function Int64(x: int): (r: int)
    ensures LONG_MIN <= r <= LONG_MAX
    ensures LONG_MIN <= x <= LONG_MAX ==> r == x
    ensures (r - x) % 0x1_0000_0000_0000_0000 == 0
  {
    var m := x % 0x1_0000_0000_0000_0000;
    if m > LONG_MAX then m - 0x1_0000_0000_0000_0000 else m
  }
}
