/** Decimal rendering of integers, as a JavaScript template literal
    `${n}` prints an integer-valued number below 10^21 in magnitude (from
    10^21 up it switches to exponent form, which is not modelled), and its
    inverse. */
module Decimal {
  import opened Wrappers

  predicate IsDigit(c: char) {
    '0' <= c <= '9'
  }

  predicate AllDigits(s: string) {
    forall i :: 0 <= i < |s| ==> IsDigit(s[i])
  }

  function DigitChar(d: int): (c: char)
    requires 0 <= d < 10
    ensures IsDigit(c) && DigitValue(c) == d
  {
    (d + '0' as int) as char
  }

  function DigitValue(c: char): int
    requires IsDigit(c)
  {
    c as int - '0' as int
  }

  /** Digits of `n` in base 10, most significant first, without leading zeros. */
  function NatToString(n: nat): (s: string)
    ensures |s| >= 1 && AllDigits(s)
    ensures s[0] == '0' ==> n == 0
  {
    if n < 10 then [DigitChar(n)] else NatToString(n / 10) + [DigitChar(n % 10)]
  }


  /** Digits with no leading zero, unless the text is just "0". */
  predicate CanonicalNat(s: string) {
    |s| >= 1 && AllDigits(s) && (s[0] == '0' ==> |s| == 1)
  }

  /** The shortest text of an integer: canonical digits after an optional
      minus sign, and never "-0". */
  predicate CanonicalInt(s: string) {
    CanonicalNat(s) || (|s| >= 2 && s[0] == '-' && s[1] != '0' && CanonicalNat(s[1..]))
  }

  /** The value of a string of decimal digits. */
  function DigitsValue(s: string): nat
    requires AllDigits(s)
  {
    if s == [] then 0 else DigitsValue(s[..|s| - 1]) * 10 + DigitValue(s[|s| - 1])
  }

  /** Reads back an optionally signed decimal integer; None for anything else. */
  function ParseInt(s: string): Option<int> {
    if |s| >= 2 && s[0] == '-' && AllDigits(s[1..]) then
      var magnitude: int := DigitsValue(s[1..]); Some(-magnitude)
    else if |s| >= 1 && AllDigits(s) then
      var magnitude: int := DigitsValue(s); Some(magnitude)
    else None
  }

  lemma {:induction false} NatToStringValue(n: nat)
    ensures DigitsValue(NatToString(n)) == n
  {
    var s := NatToString(n);
    if n >= 10 {
      NatToStringValue(n / 10);
      assert s[..|s| - 1] == NatToString(n / 10);
    }
  }

  /** A canonical digit string is the one `NatToString` prints for its value. */
  lemma {:induction false} NatToStringOfDigits(s: string)
    requires CanonicalNat(s)
    ensures NatToString(DigitsValue(s)) == s
  {
    if |s| >= 2 {
      var prefix := s[..|s| - 1];
      assert CanonicalNat(prefix);
      NatToStringOfDigits(prefix);
      var v := DigitsValue(prefix);
      assert DigitsValue(s) / 10 == v && DigitsValue(s) % 10 == DigitValue(s[|s| - 1]);
      assert s == prefix + [s[|s| - 1]];
    }
  }

  /** `${n}` for an integer `n` with |n| < 10^21: a minus sign before the
      digits of `-n` when negative. The text is canonical and reads back as
      `n`, which by `CanonicalIntText` fixes it. */
  function IntToString(n: int): (s: string)
    ensures |s| >= 1
    ensures s[0] == '-' <==> n < 0
    ensures CanonicalInt(s)
    ensures ParseInt(s) == Some(n)
  {
    if n < 0 then
      var s := "-" + NatToString(-n);
      assert s[1..] == NatToString(-n);
      NatToStringValue(-n);
      s
    else
      NatToStringValue(n);
      NatToString(n)
  }

  /** The only canonical text that reads back as `n` is `IntToString(n)`. */
  lemma CanonicalIntText(s: string, n: int)
    requires CanonicalInt(s) && ParseInt(s) == Some(n)
    ensures s == IntToString(n)
  {
    if |s| >= 2 && s[0] == '-' {
      NatToStringOfDigits(s[1..]);
      assert s == "-" + s[1..];
    } else {
      NatToStringOfDigits(s);
    }
  }

  /** Distinct integers print differently. */
  lemma IntToStringInjective(m: int, n: int)
    requires IntToString(m) == IntToString(n)
    ensures m == n
  {
  }
}
