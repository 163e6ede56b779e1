/**
 Decimal rendering of integers, as Rust's `{}` formatting prints an `i64`:
 an optional '-' followed by the digits of the magnitude, without leading
 zeros. A parser for the same text is the rendering's partner: reading the
 text back gives the number, so two different ids never render alike.
 */
module Decimal {

  predicate IsDigit(c: char) {
    '0' <= c <= '9'
  }

  /** Every character of `s` is a decimal digit. */
  predicate AllDigits(s: string) {
    forall i :: 0 <= i < |s| ==> IsDigit(s[i])
  }

  /** One or more digits, optionally after a leading '-': the text `ParseInt` reads. */
  predicate Signed(s: string) {
    |s| > 0 && (AllDigits(s) || (|s| > 1 && s[0] == '-' && AllDigits(s[1..])))
  }

  /** No leading zero: a '0' only stands alone, and a '-' is followed by a non-zero digit. */
  predicate Canonical(s: string) {
    |s| > 0 && (s[0] == '0' ==> |s| == 1) && (s[0] == '-' ==> |s| > 1 && s[1] != '0')
  }

  function DigitChar(d: nat): (c: char)
    requires d < 10
    ensures IsDigit(c)
  {
    "0123456789"[d]
  }

  function DigitValue(c: char): nat
    requires IsDigit(c)
  {
    (c as int - '0' as int) as nat
  }

  /** The decimal digits of `n`, most significant first. */
  function NatToString(n: nat): (s: string)
    ensures |s| > 0 && AllDigits(s)
    ensures s[0] == '0' ==> n == 0
  {
    if n < 10 then [DigitChar(n)]
    else NatToString(n / 10) + [DigitChar(n % 10)]
  }

  /** `{}` of a signed integer. */
  function IntToString(i: int): (s: string)
    ensures Signed(s)
  {
    if i < 0 then
      var digits := NatToString(-i);
      assert ("-" + digits)[1..] == digits;
      "-" + digits
    else NatToString(i)
  }

  /** The number a string of decimal digits denotes. */
  function DigitsValue(s: string): nat
    requires AllDigits(s)
  {
    if s == [] then 0
    else DigitsValue(s[..|s| - 1]) * 10 + DigitValue(s[|s| - 1])
  }

  /** Reads back a rendering of `IntToString`: an optional '-' and digits. */
  function ParseInt(s: string): int
    requires Signed(s)
  {
    if s[0] == '-' then -(DigitsValue(s[1..]) as int) else DigitsValue(s)
  }

  lemma {:induction false} NatToStringRoundTrip(n: nat)
    ensures DigitsValue(NatToString(n)) == n
  {
    if n >= 10 {
      var prefix := NatToString(n / 10);
      var s := prefix + [DigitChar(n % 10)];
      assert s[..|s| - 1] == prefix;
      NatToStringRoundTrip(n / 10);
    }
  }

  lemma {:induction false} IntToStringRoundTrip(i: int)
    ensures ParseInt(IntToString(i)) == i
  {
    if i < 0 {
      NegativeRoundTrip(-i);
    } else {
      NatToStringRoundTrip(i);
    }
  }

  /** A '-' before digits negates their value. */
  lemma {:induction false} ParseNegative(digits: string)
    requires |digits| > 0 && AllDigits(digits)
    ensures Signed("-" + digits)
    ensures ParseInt("-" + digits) == -(DigitsValue(digits) as int)
  {
    assert ("-" + digits)[1..] == digits;
  }

  /** The rendering of `-n` reads back as minus the value of the digits of `n`. */
  lemma {:induction false} NegativeParse(n: nat)
    requires n > 0
    ensures ParseInt(IntToString(-(n as int))) == -(DigitsValue(NatToString(n)) as int)
  {
    var digits := NatToString(n);
    assert IntToString(-(n as int)) == "-" + digits;
    ParseNegative(digits);
  }

  lemma {:induction false} NegativeRoundTrip(n: nat)
    requires n > 0
    ensures ParseInt(IntToString(-(n as int))) == -(n as int)
  {
    NegativeParse(n);
    NatToStringRoundTrip(n);
  }

  /** `{}` never pads with zeros and never prints "-0". */
  lemma {:induction false} IntToStringCanonical(i: int)
    ensures Canonical(IntToString(i))
  {
    if i < 0 {
      NegativeCanonical(-i);
    } else if i == 0 {
      assert IntToString(0) == [DigitChar(0)];
    }
  }

  lemma {:induction false} NegativeCanonical(n: nat)
    requires n > 0
    ensures Canonical(IntToString(-(n as int)))
  {
    var digits := NatToString(n);
    assert IntToString(-(n as int)) == "-" + digits;
    assert digits[0] != '0';
  }

  /** A rendering holds no ':' and no newline, so it ends before a label's separator. */
  lemma IntToStringSeparatorFree(i: int)
    ensures ':' !in IntToString(i) && '\n' !in IntToString(i)
  {
  }

  /** Two different numbers never render to the same text. */
  lemma IntToStringInjective(a: int, b: int)
    requires IntToString(a) == IntToString(b)
    ensures a == b
  {
    IntToStringRoundTrip(a);
    IntToStringRoundTrip(b);
  }
}
