/**
 The two JavaScript string operations the core relies on: `String.prototype.toUpperCase`
 (for the level label fallback) and the rendering of an integer inside a template literal
 (for the log messages that embed a count, an id or a status code).
 */
module JsText {

  predicate IsLowerAscii(c: char) { 'a' <= c <= 'z' }

  /** Upper-cases one character; only the ASCII letters `a`..`z` change, each to its capital. */
  function UpperChar(c: char): (u: char)
    ensures IsLowerAscii(c) ==> 'A' <= u <= 'Z' && u as int == c as int - 32
    ensures !IsLowerAscii(c) ==> u == c
    ensures !IsLowerAscii(u)
  {
    if 'a' <= c <= 'z' then (c as int - 32) as char else c
  }

  /** `s.toUpperCase()`: no lower-case letter is left, and every other character is kept. */
  function ToUpperCase(s: string): (r: string)
    ensures |r| == |s|
    ensures forall i :: 0 <= i < |r| ==> !IsLowerAscii(r[i])
    ensures forall i :: 0 <= i < |s| && !IsLowerAscii(s[i]) ==> r[i] == s[i]
    ensures forall i :: 0 <= i < |s| && IsLowerAscii(s[i]) ==> r[i] as int == s[i] as int - 32
  {
    seq(|s|, i requires 0 <= i < |s| => UpperChar(s[i]))
  }

  /** Upper-casing twice is upper-casing once. */
  lemma ToUpperCaseIdempotent(s: string)
    ensures ToUpperCase(ToUpperCase(s)) == ToUpperCase(s)
  {
  }

  predicate IsDigit(c: char) { '0' <= c <= '9' }

  function DigitChar(d: nat): (c: char)
    requires d < 10
    ensures IsDigit(c)
  {
    ('0' as int + d) as char
  }

  /** The number a string of decimal digits stands for, most significant digit first. */
  function DigitsValue(s: string): nat
    requires forall i :: 0 <= i < |s| ==> IsDigit(s[i])
  {
    if s == [] then 0
    else
      assert IsDigit(s[|s| - 1]);
      10 * DigitsValue(s[..|s| - 1]) + (s[|s| - 1] as int - '0' as int)
  }

  /** The decimal digits of a natural number, most significant first, without leading zeros. */
  function NatDecimal(n: nat): (s: string)
    ensures |s| > 0
    ensures forall i :: 0 <= i < |s| ==> IsDigit(s[i])
    ensures DigitsValue(s) == n
    ensures (|s| == 1) == (n < 10)
    ensures s[0] == '0' ==> n == 0
    decreases n
  {
    if n < 10 then [DigitChar(n)]
    else
      var prefix := NatDecimal(n / 10);
      var s := prefix + [DigitChar(n % 10)];
      assert s[..|s| - 1] == prefix;
      s
  }

  /** `${n}` for an integer `n`: a minus sign before the digits of a negative number. */
  function Decimal(n: int): (s: string)
    ensures |s| > 0
    ensures s[0] == '-' <==> n < 0
    ensures forall i :: 0 < i < |s| ==> IsDigit(s[i])
    ensures n < 0 ==> DigitsValue(s[1..]) == -n
    ensures n >= 0 ==> IsDigit(s[0]) && DigitsValue(s) == n
    ensures n >= 0 && s[0] == '0' ==> n == 0 && |s| == 1
    ensures n < 0 ==> |s| >= 2 && s[1] != '0'
  {
    if n < 0 then
      var s := "-" + NatDecimal(-n);
      assert s[1..] == NatDecimal(-n);
      s
    else NatDecimal(n)
  }

  /** Distinct natural numbers have distinct decimal renderings. */
  lemma {:induction false} NatDecimalInjective(a: nat, b: nat)
    requires NatDecimal(a) == NatDecimal(b)
    ensures a == b
    decreases a
  {
    var s := NatDecimal(a);
    if a >= 10 {
      assert b >= 10;
      assert NatDecimal(a / 10) == s[..|s| - 1] == NatDecimal(b / 10);
      NatDecimalInjective(a / 10, b / 10);
      assert DigitChar(a % 10) == s[|s| - 1] == DigitChar(b % 10);
    }
  }

  /** Distinct integers have distinct renderings: `${n}` determines `n`. */
  lemma DecimalInjective(a: int, b: int)
    requires Decimal(a) == Decimal(b)
    ensures a == b
  {
    if a < 0 {
      assert NatDecimal(-a) == Decimal(a)[1..] == NatDecimal(-b);
      NatDecimalInjective(-a, -b);
    } else {
      NatDecimalInjective(a, b);
    }
  }
}
