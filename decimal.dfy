/**
 * Decimal digit strings: Python's str() of a non-negative integer, the
 * zero-padded fields of strftime, and the reading of a digit run back into
 * a number.
 */
module Decimal {
  import opened Wrappers

  function Pow10(k: nat): (r: nat)
    ensures r >= 1
  {
    if k == 0 then 1 else 10 * Pow10(k - 1)
  }

  predicate IsDigit(c: char) {
    '0' <= c <= '9'
  }

  predicate AllDigits(s: string) {
    forall i :: 0 <= i < |s| ==> IsDigit(s[i])
  }

  function DigitChar(d: nat): (c: char)
    requires d < 10
    ensures IsDigit(c)
  {
    ('0' as int + d) as char
  }

  function DigitValue(c: char): (d: nat)
    requires IsDigit(c)
    ensures d < 10
  {
    c as int - '0' as int
  }

  /** The number a run of decimal digits denotes, most significant digit first. */
  function Value(s: string): nat
    requires AllDigits(s)
    decreases |s|
  {
    if s == [] then 0 else Value(s[..|s| - 1]) * 10 + DigitValue(s[|s| - 1])
  }

  /** A run of `k` zero digits. */
  function Zeros(k: nat): (r: string)
    ensures |r| == k && AllDigits(r)
  {
    seq(k, _ => '0')
  }

  /**
   * The shortest decimal rendering of `n`: Python's str(n) for n >= 0, and the
   * unpadded strftime fields %-d and %-m. It denotes n and has no leading zero.
   */
  function NatToString(n: nat): (r: string)
    ensures 1 <= |r| && AllDigits(r)
    ensures Value(r) == n
    ensures r[0] == '0' ==> r == "0"
    decreases n
  {
    if n < 10 then [DigitChar(n)]
    else
      var init := NatToString(n / 10);
      var r := init + [DigitChar(n % 10)];
      assert r[..|r| - 1] == init;
      r
  }

  /** A non-empty run of digits without a superfluous leading zero, read as a number. */
  function ParseCanonical(s: string): Option<nat> {
    if 1 <= |s| && AllDigits(s) && (s[0] == '0' ==> |s| == 1) then Some(Value(s)) else None
  }

  /** str(n) reads back as n, with no superfluous leading zero. */
  lemma NatToStringCanonical(n: nat)
    ensures ParseCanonical(NatToString(n)) == Some(n)
  {
  }

  lemma {:induction false} ZerosValue(k: nat)
    ensures Value(Zeros(k)) == 0
  {
    if k > 0 {
      assert Zeros(k)[..k - 1] == Zeros(k - 1);
      ZerosValue(k - 1);
    }
  }

  /** Leading zeros do not change the number a digit run denotes. */
  lemma {:induction false} LeadingZeros(k: nat, s: string)
    requires AllDigits(s)
    ensures AllDigits(Zeros(k) + s) && Value(Zeros(k) + s) == Value(s)
    decreases |s|
  {
    var z := Zeros(k) + s;
    if s == [] {
      assert z == Zeros(k);
      ZerosValue(k);
    } else {
      var init := s[..|s| - 1];
      LeadingZeros(k, init);
      assert z[..|z| - 1] == Zeros(k) + init;
    }
  }

  /** A number below 10^w needs at most w digits. */
  lemma {:induction false} LengthBound(n: nat, w: nat)
    requires 1 <= w && n < Pow10(w)
    ensures |NatToString(n)| <= w
    decreases n
  {
    if n >= 10 {
      assert n / 10 < Pow10(w - 1);
      LengthBound(n / 10, w - 1);
    }
  }

  /**
   * `n` in decimal, padded on the left with zeros to `width` characters: the
   * strftime fields %d, %m (width 2), %Y (width 4) and %y (width 2, of year % 100).
   */
  function ZeroPad(n: nat, width: nat): (r: string)
    ensures AllDigits(r) && Value(r) == n
    ensures 1 <= width && n < Pow10(width) ==> |r| == width
    ensures |r| >= width
  {
    var s := NatToString(n);
    var k := if |s| < width then width - |s| else 0;
    LeadingZeros(k, s);
    if 1 <= width && n < Pow10(width) then LengthBound(n, width); Zeros(k) + s
    else Zeros(k) + s
  }
}
