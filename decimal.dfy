/** Decimal rendering of natural numbers (`Number.prototype.toString()` on a
    non-negative integer), its inverse, and `String.prototype.padStart`
    with a one-character fill. */
module Decimal {

  predicate IsDigit(c: char) {
    '0' <= c <= '9'
  }

  predicate AllDigits(s: string) {
    forall i :: 0 <= i < |s| ==> IsDigit(s[i])
  }

  function DigitChar(d: nat): (c: char)
    requires d < 10
    ensures IsDigit(c)
  {
    ('0' as int + d) as char
  }

  function DigitValue(c: char): (d: nat)
    requires IsDigit(c)
    ensures d < 10
  {
    c as int - '0' as int
  }

  /** The shortest decimal numeral of `n`, most significant digit first. */
  function FromNat(n: nat): (s: string)
    ensures 1 <= |s|
    ensures AllDigits(s)
    decreases n
  {
    if n < 10 then [DigitChar(n)] else FromNat(n / 10) + [DigitChar(n % 10)]
  }

  /** The value of a numeral; leading zeros contribute nothing. */
  function ToNat(s: string): (n: nat)
    requires AllDigits(s)
    decreases |s|
  {
    if s == [] then 0 else ToNat(s[..|s| - 1]) * 10 + DigitValue(s[|s| - 1])
  }

  /** Reading back a rendered numeral gives the number. */
  lemma {:induction false} ToNatFromNat(n: nat)
    ensures ToNat(FromNat(n)) == n
    decreases n
  {
    var s := FromNat(n);
    if n >= 10 {
      ToNatFromNat(n / 10);
      assert s[..|s| - 1] == FromNat(n / 10);
    }
  }

  /** Rendering is injective: distinct numbers have distinct numerals. */
  lemma FromNatInjective(a: nat, b: nat)
    requires FromNat(a) == FromNat(b)
    ensures a == b
  {
    ToNatFromNat(a);
    ToNatFromNat(b);
  }

  /** The numeral has one digit exactly below 10, two digits exactly on
      [10, 100), and at least three from 100 on. */
  lemma {:induction false} FromNatLength(n: nat)
    ensures |FromNat(n)| == 1 <==> n < 10
    ensures |FromNat(n)| == 2 <==> 10 <= n < 100
    ensures |FromNat(n)| >= 3 <==> 100 <= n
    decreases n
  {
    if n >= 10 {
      FromNatLength(n / 10);
    }
  }

  /** `s.padStart(width, fill)`: `fill` repeated in front of `s` up to
      `width` characters; a string already that long is returned as is. */
  function PadStart(s: string, width: nat, fill: char): (r: string)
    ensures |r| == if |s| >= width then |s| else width
    ensures r[|r| - |s|..] == s
    ensures forall i :: 0 <= i < |r| - |s| ==> r[i] == fill
    decreases width - |s|
  {
    if |s| >= width then s else PadStart([fill] + s, width, fill)
  }

  /** Zeros in front of a numeral do not change its value. */
  lemma {:induction false} ToNatLeadingZero(s: string)
    requires AllDigits(s)
    ensures AllDigits("0" + s) && ToNat("0" + s) == ToNat(s)
    decreases |s|
  {
    var t := "0" + s;
    if s != [] {
      assert t[..|t| - 1] == "0" + s[..|s| - 1];
      ToNatLeadingZero(s[..|s| - 1]);
    }
  }

  /** Padding a numeral with '0' keeps it a numeral of the same value. */
  lemma {:induction false} ToNatPadZeros(s: string, width: nat)
    requires AllDigits(s)
    ensures AllDigits(PadStart(s, width, '0'))
    ensures ToNat(PadStart(s, width, '0')) == ToNat(s)
    decreases width - |s|
  {
    if |s| < width {
      ToNatLeadingZero(s);
      ToNatPadZeros("0" + s, width);
    }
  }
}
