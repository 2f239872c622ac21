/**
 * The integer conversions the contract relies on: Rust's `str::parse` for
 * `u128` and `i32`, decimal formatting with `format!("{}", ..)`, and the
 * scaling between whole NEAR and yoctoNEAR (10^24 yocto per NEAR) done with
 * checked `u128` arithmetic.
 */
module Numbers {
  import opened Options

  /** yoctoNEAR per NEAR. */
  const YOCTO_PER_NEAR: nat := 1_000_000_000_000_000_000_000_000

  /** 2^128 - 1, the largest `u128`. */
  const U128_MAX: nat := 340282366920938463463374607431768211455

  /** The largest whole-NEAR amount whose yocto value fits in a `u128`: U128_MAX / 10^24. */
  const MAX_WHOLE_NEAR: nat := 340282366920938

  const I32_MIN: int := -2147483648
  const I32_MAX: int := 2147483647

  predicate IsDigit(c: char) {
    '0' <= c <= '9'
  }

  predicate AllDigits(s: string) {
    forall i :: 0 <= i < |s| ==> IsDigit(s[i])
  }

  function DigitValue(c: char): (d: nat)
    requires IsDigit(c)
    ensures d < 10
  {
    c as int - '0' as int
  }

  function DigitChar(d: nat): (c: char)
    requires d < 10
    ensures IsDigit(c) && DigitValue(c) == d
  {
    ('0' as int + d) as char
  }

  /** The value of a string of decimal digits, most significant digit first. */
  function DigitsValue(s: string): nat
    requires AllDigits(s)
  {
    if s == [] then 0 else DigitsValue(s[..|s| - 1]) * 10 + DigitValue(s[|s| - 1])
  }

  /**
   * `s.parse::<u128>()`: an optional leading '+', then at least one decimal
   * digit, with a value no larger than 2^128 - 1. A '-' sign is an invalid
   * digit for an unsigned type.
   */
  function ParseU128(s: string): (r: Option<nat>)
    ensures r.Some? ==> r.value <= U128_MAX
  {
    var k := if |s| > 0 && s[0] == '+' then 1 else 0;
    var digits := s[k..];
    if digits != [] && AllDigits(digits) && DigitsValue(digits) <= U128_MAX then Some(DigitsValue(digits)) else None
  }

  /**
   * `s.parse::<i32>()`: an optional leading '+' or '-', then at least one
   * decimal digit, with a value in [-2^31, 2^31 - 1].
   */
  function ParseI32(s: string): (r: Option<int>)
    ensures r.Some? ==> I32_MIN <= r.value <= I32_MAX
  {
    if |s| > 0 && s[0] == '-' then
      var digits := s[1..];
      if digits != [] && AllDigits(digits) && I32_MIN <= -(DigitsValue(digits) as int) then Some(-(DigitsValue(digits) as int)) else None
    else
      var digits := if |s| > 0 && s[0] == '+' then s[1..] else s;
      if digits != [] && AllDigits(digits) && DigitsValue(digits) <= I32_MAX then Some(DigitsValue(digits)) else None
  }

  /** `format!("{}", n)` for an unsigned integer: its decimal digits, without leading zeros. */
  function FormatDecimal(n: nat): (s: string)
    ensures s != [] && AllDigits(s)
    ensures DigitsValue(s) == n
    ensures s[0] == '0' ==> n == 0 && s == "0"
  {
    if n < 10 then [DigitChar(n)]
    else
      var front := FormatDecimal(n / 10);
      var s := front + [DigitChar(n % 10)];
      assert s[..|s| - 1] == front;
      s
  }

  /** Formatting a `u128` and parsing it back yields the same number. */
  lemma FormatThenParse(n: nat)
    requires n <= U128_MAX
    ensures ParseU128(FormatDecimal(n)) == Some(n)
  {
    var s := FormatDecimal(n);
    assert s[0] != '+';
    assert s[0..] == s;
  }

  /** What `ParseU128` accepts: an optional '+', then only digits, read as their decimal value. */
  lemma ParseU128Shape(s: string)
    ensures ParseU128(s).Some? ==>
      var k := if s[0] == '+' then 1 else 0;
      k < |s| && AllDigits(s[k..]) && ParseU128(s).value == DigitsValue(s[k..])
  {
  }

  /** What `ParseI32` accepts: an optional '+' or '-', then only digits, read as their signed decimal value. */
  lemma ParseI32Shape(s: string)
    ensures ParseI32(s).Some? ==>
      var k := if s[0] == '-' || s[0] == '+' then 1 else 0;
      && k < |s| && AllDigits(s[k..])
      && ParseI32(s).value == (if s[0] == '-' then -(DigitsValue(s[k..]) as int) else DigitsValue(s[k..]))
  {
  }

  /** `format!("{}", n)` for a signed integer: a '-' before the digits of a negative value. */
  function FormatSigned(n: int): (s: string)
    ensures s != [] && (s[0] == '-' <==> n < 0)
  {
    if n < 0 then "-" + FormatDecimal(-n) else FormatDecimal(n)
  }

  /** Formatting an `i32` and parsing it back yields the same number. */
  lemma FormatThenParseI32(n: int)
    requires I32_MIN <= n <= I32_MAX
    ensures ParseI32(FormatSigned(n)) == Some(n)
  {
    var s := FormatSigned(n);
    if n < 0 {
      assert s[1..] == FormatDecimal(-n);
    } else {
      assert s[0] != '+';
    }
  }

  /** `c * 10^24` on `u128` with overflow checking: None when the product does not fit. */
  function ToYocto(near: nat): (r: Option<nat>)
    ensures r.Some? ==> r.value <= U128_MAX && r.value % YOCTO_PER_NEAR == 0
  {
    if near * YOCTO_PER_NEAR <= U128_MAX then Some(near * YOCTO_PER_NEAR) else None
  }

  /** `y / 10^24`: the whole-NEAR part of a yocto amount (truncating division of a `u128`). */
  function FromYocto(yocto: nat): (near: nat)
    ensures near * YOCTO_PER_NEAR <= yocto < (near + 1) * YOCTO_PER_NEAR
  {
    yocto / YOCTO_PER_NEAR
  }

  /** Scaling fails exactly for amounts above MAX_WHOLE_NEAR. */
  lemma ToYoctoDefinedIff(near: nat)
    ensures ToYocto(near).Some? <==> near <= MAX_WHOLE_NEAR
  {
    if near <= MAX_WHOLE_NEAR {
      assert near * YOCTO_PER_NEAR <= MAX_WHOLE_NEAR * YOCTO_PER_NEAR;
    } else {
      assert near * YOCTO_PER_NEAR >= (MAX_WHOLE_NEAR + 1) * YOCTO_PER_NEAR;
    }
  }

  /** Scaling to yocto and back returns the whole-NEAR amount. */
  lemma YoctoRoundTrip(near: nat)
    requires ToYocto(near).Some?
    ensures FromYocto(ToYocto(near).value) == near
  {
  }
}
