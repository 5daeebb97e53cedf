/**
 * Decimal text of non-negative integers, as Python's `str(n)`, `str(n).zfill(w)`
 * and the format `f"{n:0w}"` produce it.
 */
module Text {

  predicate IsDigit(c: char) {
    '0' <= c <= '9'
  }

  predicate IsDigits(s: string) {
    forall i :: 0 <= i < |s| ==> IsDigit(s[i])
  }

  function DigitChar(d: nat): (c: char)
    requires d < 10
    ensures IsDigit(c)
  {
    ('0' as int + d) as char
  }

  function DigitValue(c: char): (d: nat)
    requires IsDigit(c)
    ensures d < 10 && DigitChar(d) == c
  {
    c as int - '0' as int
  }

  function Pow10(k: nat): (p: nat)
    ensures p >= 1
  {
    if k == 0 then 1 else 10 * Pow10(k - 1)
  }

  /** `str(n)` for a non-negative integer: shortest decimal text, no leading zero. */
  function NatToDecimal(n: nat): (s: string)
    ensures |s| >= 1 && IsDigits(s)
    ensures |s| > 1 ==> s[0] != '0'
  {
    if n < 10 then [DigitChar(n)] else NatToDecimal(n / 10) + [DigitChar(n % 10)]
  }

  /** The value of a string of decimal digits (leading zeros allowed, "" is 0). */
  function DecimalToNat(s: string): nat
    requires IsDigits(s)
  {
    if s == [] then 0 else DecimalToNat(s[..|s| - 1]) * 10 + DigitValue(s[|s| - 1])
  }

  function Zeros(k: nat): (z: string)
    ensures |z| == k && IsDigits(z)
    ensures forall i :: 0 <= i < k ==> z[i] == '0'
  {
    if k == 0 then [] else Zeros(k - 1) + ['0']
  }

  /** `s.zfill(width)` for a digit string: left-padded with '0' up to `width`, never cut. */
  function ZFill(s: string, width: nat): (r: string)
  {
    if |s| >= width then s else Zeros(width - |s|) + s
  }

  lemma {:induction false} DecimalRoundTrip(n: nat)
    ensures DecimalToNat(NatToDecimal(n)) == n
  {
    if n >= 10 {
      var s := NatToDecimal(n / 10) + [DigitChar(n % 10)];
      assert s[..|s| - 1] == NatToDecimal(n / 10);
      DecimalRoundTrip(n / 10);
    }
  }

  lemma {:induction false} LeadingZeroIgnored(s: string)
    requires IsDigits(s)
    ensures IsDigits(['0'] + s) && DecimalToNat(['0'] + s) == DecimalToNat(s)
  {
    if s != [] {
      var t := ['0'] + s;
      assert t[..|t| - 1] == ['0'] + s[..|s| - 1];
      LeadingZeroIgnored(s[..|s| - 1]);
    } else {
      assert (['0'] + s)[..0] == [];
    }
  }

  lemma {:induction false} LeadingZerosIgnored(k: nat, s: string)
    requires IsDigits(s)
    ensures IsDigits(Zeros(k) + s) && DecimalToNat(Zeros(k) + s) == DecimalToNat(s)
  {
    if k > 0 {
      LeadingZeroIgnored(s);
      LeadingZerosIgnored(k - 1, ['0'] + s);
      assert Zeros(k) == Zeros(k - 1) + ['0'];
      assert Zeros(k) + s == Zeros(k - 1) + (['0'] + s);
    } else {
      assert Zeros(k) + s == s;
    }
  }

  /** Zero-filling the decimal text of `n` to any width is digits only, exactly
      `width` long when `n` fits, and still reads back as `n`. */
  lemma ZFillDecimal(n: nat, width: nat)
    ensures IsDigits(ZFill(NatToDecimal(n), width))
    ensures DecimalToNat(ZFill(NatToDecimal(n), width)) == n
    ensures |ZFill(NatToDecimal(n), width)| >= width
    ensures width >= 1 && n < Pow10(width) ==> |ZFill(NatToDecimal(n), width)| == width
  {
    var s := NatToDecimal(n);
    DecimalRoundTrip(n);
    if |s| < width {
      LeadingZerosIgnored(width - |s|, s);
    }
    if width >= 1 && n < Pow10(width) {
      DecimalLength(n, width);
    }
  }

  /** `str(n)` has at most `k` digits exactly when `n < 10^k` (for `k >= 1`). */
  lemma {:induction false} DecimalLength(n: nat, k: nat)
    requires k >= 1
    ensures |NatToDecimal(n)| <= k <==> n < Pow10(k)
  {
    if n >= 10 {
      if k == 1 {
        assert Pow10(1) == 10;
        var s := NatToDecimal(n);
        assert |s| >= 2;
      } else {
        DecimalLength(n / 10, k - 1);
      }
    } else {
      assert Pow10(k) >= 10 by { Pow10AtLeastTen(k); }
    }
  }

  lemma {:induction false} Pow10AtLeastTen(k: nat)
    requires k >= 1
    ensures Pow10(k) >= 10
  {
    if k > 1 {
      Pow10AtLeastTen(k - 1);
    }
  }

  /** Distinct numbers have distinct decimal texts. */
  lemma DecimalInjective(m: nat, n: nat)
    requires NatToDecimal(m) == NatToDecimal(n)
    ensures m == n
  {
    DecimalRoundTrip(m);
    DecimalRoundTrip(n);
  }

  /** Python's `sub in s` on strings: `sub` occurs somewhere in `s`. */
  predicate Contains(s: string, sub: string) {
    exists i | 0 <= i <= |s| - |sub| :: OccursAt(s, sub, i)
  }

  predicate OccursAt(s: string, sub: string, i: int) {
    0 <= i <= |s| - |sub| && s[i..i + |sub|] == sub
  }
}
