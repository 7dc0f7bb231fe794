/**
 * Decimal text of integers, as Rust's `i64::to_string` produces it: an
 * optional `-` followed by the digits of the magnitude, without leading
 * zeros. `IntValue` reads such text back and is the partner of `IntText`.
 */
module Decimal {

  function DigitChar(d: nat): (c: char)
    requires d < 10
    ensures '0' <= c <= '9'
  {
    ('0' as int + d) as char
  }

  predicate IsDigits(s: string)
  {
    forall k :: 0 <= k < |s| ==> '0' <= s[k] <= '9'
  }

  /** The digits of `n` in base ten, most significant first. */
  function Digits(n: nat): (r: string)
    ensures |r| >= 1 && IsDigits(r)
    ensures r[0] == '0' <==> n == 0
  {
    if n < 10 then [DigitChar(n)] else Digits(n / 10) + [DigitChar(n % 10)]
  }

  /** The number a string of digits denotes. */
  function NaturalValue(s: string): nat
    requires IsDigits(s)
  {
    if |s| == 0 then 0
    else NaturalValue(s[..|s| - 1]) * 10 + (s[|s| - 1] as int - '0' as int)
  }

  lemma {:induction false} DigitsValue(n: nat)
    ensures NaturalValue(Digits(n)) == n
  {
    if n >= 10 {
      DigitsValue(n / 10);
      var d := Digits(n);
      assert d[..|d| - 1] == Digits(n / 10);
    }
  }

  /** Well-formed decimal integer text: digits, optionally after one `-`. */
  predicate IsDecimal(s: string)
  {
    |s| >= 1 && if s[0] == '-' then |s| >= 2 && IsDigits(s[1..]) else IsDigits(s)
  }

  /** The decimal text of `n`; it carries a `-` exactly when `n` is negative. */
  function IntText(n: int): (r: string)
    ensures IsDecimal(r)
    ensures r[0] == '-' <==> n < 0
    ensures r[if n < 0 then 1 else 0] == '0' <==> n == 0
  {
    if n < 0 then "-" + Digits(-n) else Digits(n)
  }

  function IntValue(s: string): int
    requires IsDecimal(s)
  {
    if s[0] == '-' then -(NaturalValue(s[1..]) as int) else NaturalValue(s)
  }

  /** The decimal text of an integer reads back as that integer. */
  lemma IntTextValue(n: int)
    ensures IntValue(IntText(n)) == n
  {
    if n < 0 {
      DigitsValue(-n);
      assert IntText(n)[1..] == Digits(-n);
    } else {
      DigitsValue(n);
    }
  }
}
