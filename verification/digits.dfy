/** Decimal rendering and parsing of non-negative integers, and left padding,
    as the component uses them through `Number.prototype.toString` and
    `String.prototype.padStart`. */
module Digits {

  predicate IsDigit(c: char) {
    '0' <= c <= '9'
  }

  predicate AllDigits(s: string) {
    forall i :: 0 <= i < |s| ==> IsDigit(s[i])
  }

  function DigitChar(d: nat): (c: char)
    requires d < 10
    ensures IsDigit(c)
  {
    (('0' as int) + d) as char
  }

  function DigitValue(c: char): (d: nat)
    requires IsDigit(c)
    ensures d < 10
  {
    c as int - '0' as int
  }

  function Pow10(k: nat): (p: nat)
    ensures p >= 1
  {
    if k == 0 then 1 else 10 * Pow10(k - 1)
  }

  /** The shortest decimal rendering of `n`: digits only, no leading zero. */
  function NatToString(n: nat): (s: string)
    ensures 1 <= |s| && AllDigits(s)
    ensures |s| > 1 ==> s[0] != '0'
    decreases n
  {
    if n < 10 then [DigitChar(n)] else NatToString(n / 10) + [DigitChar(n % 10)]
  }

  /** The number a string of decimal digits denotes (most significant first). */
  function Value(s: string): nat
    requires AllDigits(s)
  {
    if |s| == 0 then 0 else Value(s[..|s| - 1]) * 10 + DigitValue(s[|s| - 1])
  }

  /** `count` copies of `c`. */
  function Repeat(c: char, count: nat): (r: string)
    ensures |r| == count
    ensures forall i :: 0 <= i < count ==> r[i] == c
  {
    seq(count, _ => c)
  }

  /** JavaScript's `s.padStart(width, fill)` for a one-character fill: pads on
      the left up to `width` and never truncates a longer string. */
  function PadStart(s: string, width: nat, fill: char): (r: string)
    ensures |s| >= width ==> r == s
    ensures |s| < width ==> |r| == width
    ensures |r| >= |s| && r[|r| - |s|..] == s
    ensures forall i :: 0 <= i < |r| - |s| ==> r[i] == fill
  {
    if |s| >= width then s else Repeat(fill, width - |s|) + s
  }

  /** Parsing the rendering of `n` gives back `n`. */
  lemma {:induction false} ValueOfNatToString(n: nat)
    ensures Value(NatToString(n)) == n
    decreases n
  {
    if n >= 10 {
      var prefix := NatToString(n / 10);
      var s := prefix + [DigitChar(n % 10)];
      assert s[..|s| - 1] == prefix;
      ValueOfNatToString(n / 10);
    }
  }

  /** A rendering fits in `k` characters exactly when `n < 10^k`. */
  lemma {:induction false} NatToStringLength(n: nat, k: nat)
    requires k >= 1
    ensures |NatToString(n)| <= k <==> n < Pow10(k)
    decreases n
  {
    if n < 10 {
      PowAtLeastTen(k);
    } else if k == 1 {
      assert Pow10(1) == 10;
    } else {
      NatToStringLength(n / 10, k - 1);
      assert n / 10 < Pow10(k - 1) <==> n < 10 * Pow10(k - 1);
    }
  }

  lemma {:induction false} PowAtLeastTen(k: nat)
    requires k >= 1
    ensures Pow10(k) >= 10
  {
    if k > 1 {
      PowAtLeastTen(k - 1);
    }
  }

  lemma {:induction false} ValueOfZeros(count: nat)
    ensures AllDigits(Repeat('0', count)) && Value(Repeat('0', count)) == 0
  {
    if count > 0 {
      var z := Repeat('0', count);
      assert z[..count - 1] == Repeat('0', count - 1);
      ValueOfZeros(count - 1);
    }
  }

  /** Leading zeros do not change the value of a digit string. */
  lemma {:induction false} ValueIgnoresLeadingZeros(count: nat, s: string)
    requires AllDigits(s)
    ensures AllDigits(Repeat('0', count) + s)
    ensures Value(Repeat('0', count) + s) == Value(s)
    decreases |s|
  {
    var z := Repeat('0', count);
    ValueOfZeros(count);
    if |s| == 0 {
      assert z + s == z;
    } else {
      var t := z + s;
      assert t[..|t| - 1] == z + s[..|s| - 1];
      assert t[|t| - 1] == s[|s| - 1];
      ValueIgnoresLeadingZeros(count, s[..|s| - 1]);
    }
  }

  /** Zero-padding a rendering keeps its value and its digits. */
  lemma ValueOfPadded(n: nat, width: nat)
    ensures AllDigits(PadStart(NatToString(n), width, '0'))
    ensures Value(PadStart(NatToString(n), width, '0')) == n
  {
    var s := NatToString(n);
    ValueOfNatToString(n);
    if |s| < width {
      ValueIgnoresLeadingZeros(width - |s|, s);
    }
  }
}
