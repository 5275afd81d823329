/** Decimal text for non-negative integers, as the JavaScript built-ins that the
    ledger's formatting relies on produce it: `String(n)` for a non-negative
    integer and `s.padStart(width, fill)` with a one-character fill; plus the
    inverse reading of a digit string, used to state round trips. */
module Decimal {

  predicate IsDigit(c: char) {
    '0' <= c <= '9'
  }

  predicate AllDigits(s: string) {
    forall i :: 0 <= i < |s| ==> IsDigit(s[i])
  }

  /** The value of one decimal digit character. */
  function DigitValue(c: char): (d: nat)
    requires IsDigit(c)
    ensures d < 10
  {
    c as int - '0' as int
  }

  /** The character of one decimal digit; the inverse of DigitValue. */
  function DigitChar(d: nat): (c: char)
    requires d < 10
    ensures IsDigit(c) && DigitValue(c) == d
  {
    (d + '0' as int) as char
  }

  function Pow10(k: nat): (p: nat)
    ensures p >= 1
  {
    if k == 0 then 1 else 10 * Pow10(k - 1)
  }

  lemma {:induction false} Pow10Monotonic(k: nat, j: nat)
    requires k <= j
    ensures Pow10(k) <= Pow10(j)
  {
    if k < j {
      Pow10Monotonic(k, j - 1);
    }
  }

  /** `String(n)` for a non-negative integer: its decimal digits, most
      significant first, with no leading zero except for 0 itself. */
  function Digits(n: nat): (s: string)
    ensures |s| >= 1 && AllDigits(s)
    ensures s[0] == '0' ==> n == 0
    decreases n
  {
    if n < 10 then [DigitChar(n)] else Digits(n / 10) + [DigitChar(n % 10)]
  }

  /** `String(i)` for any integer: a minus sign before the digits of |i|
      when i is negative. */
  function IntString(i: int): (s: string)
    ensures |s| >= 1
  {
    (if i < 0 then "-" else "") + Digits(if i < 0 then -i else i)
  }

  /** A non-negative integer is written as its digits alone. */
  lemma IntStringNat(i: nat)
    ensures IntString(i) == Digits(i)
  {
    assert "" + Digits(i) == Digits(i);
  }

  /** A minus sign leads the text exactly when the integer is negative. */
  lemma IntStringSign(i: int)
    ensures IntString(i)[0] == '-' <==> i < 0
  {
  }

  /** JavaScript's `a % b` for a positive divisor: the remainder takes the
      sign of the dividend, unlike Dafny's `%`, which is never negative. */
  function TruncRem(a: int, b: int): (r: int)
    requires b > 0
    ensures a >= 0 ==> r == a % b
    ensures a < 0 ==> -b < r <= 0
  {
    if a >= 0 then a % b else -((-a) % b)
  }

  /** The number a string of decimal digits denotes (leading zeros allowed). */
  function ParseDigits(s: string): (n: nat)
    requires AllDigits(s)
  {
    if s == [] then 0 else ParseDigits(s[..|s| - 1]) * 10 + DigitValue(s[|s| - 1])
  }

  /** k digits denote a number below 10^k. */
  lemma {:induction false} ParseDigitsBound(s: string)
    requires AllDigits(s)
    ensures ParseDigits(s) < Pow10(|s|)
  {
    if s != [] {
      ParseDigitsBound(s[..|s| - 1]);
    }
  }

  /** Reading back what Digits writes gives the number it was given. */
  lemma {:induction false} DigitsRoundTrip(n: nat)
    ensures ParseDigits(Digits(n)) == n
  {
    var s := Digits(n);
    if n >= 10 {
      DigitsRoundTrip(n / 10);
      assert s[..|s| - 1] == Digits(n / 10);
    } else {
      assert s[..|s| - 1] == [];
    }
  }

  /** Digits uses exactly as many characters as n needs: n is below 10^|s|,
      and, unless s is a single digit, at least 10^(|s|-1). */
  lemma {:induction false} DigitsLengthBounds(n: nat)
    ensures n < Pow10(|Digits(n)|)
    ensures |Digits(n)| == 1 || Pow10(|Digits(n)| - 1) <= n
  {
    DigitsRoundTrip(n);
    ParseDigitsBound(Digits(n));
    if n >= 10 {
      DigitsLengthBounds(n / 10);
    }
  }

  /** Digits(n) fits in k characters exactly when n < 10^k. */
  lemma DigitsFit(n: nat, k: nat)
    requires k >= 1
    ensures |Digits(n)| <= k <==> n < Pow10(k)
  {
    DigitsLengthBounds(n);
    var len := |Digits(n)|;
    if len <= k {
      Pow10Monotonic(len, k);
    } else {
      Pow10Monotonic(k, len - 1);
    }
  }

  function Repeat(c: char, k: nat): (r: string)
    ensures |r| == k
    ensures forall i :: 0 <= i < k ==> r[i] == c
  {
    if k == 0 then [] else [c] + Repeat(c, k - 1)
  }

  /** `s.padStart(width, fill)`: s itself when it is already `width` long or
      longer, otherwise s preceded by as many `fill` characters as make it
      exactly `width` long. */
  function PadStart(s: string, width: nat, fill: char): (r: string)
    ensures |r| == if |s| < width then width else |s|
  {
    if |s| < width then Repeat(fill, width - |s|) + s else s
  }

  /** The low k decimal digits of m, most significant first, with leading
      zeros: a fixed-width field of k digits. */
  function FixedDigits(m: nat, k: nat): (s: string)
    ensures |s| == k && AllDigits(s)
  {
    if k == 0 then [] else FixedDigits(m / 10, k - 1) + [DigitChar(m % 10)]
  }

  lemma {:induction false} FixedZeros(k: nat)
    ensures FixedDigits(0, k) == Repeat('0', k)
  {
    if k > 0 {
      FixedZeros(k - 1);
      assert Repeat('0', k) == Repeat('0', k - 1) + ['0'];
    }
  }

  /** Padding a string that ends in c is padding the rest one narrower. */
  lemma PadStartAppend(s: string, c: char, width: nat, fill: char)
    requires |s| < width
    ensures PadStart(s + [c], width, fill) == PadStart(s, width - 1, fill) + [c]
  {
    if |s| + 1 < width {
      assert Repeat(fill, width - |s| - 1) + (s + [c]) == (Repeat(fill, width - 1 - |s|) + s) + [c];
    }
  }

  lemma PaddedDigit(m: nat, k: nat)
    requires k >= 1 && m < 10
    ensures PadStart(Digits(m), k, '0') == FixedDigits(m, k)
  {
    FixedZeros(k - 1);
    assert m / 10 == 0 && m % 10 == m;
    PadStartAppend([], DigitChar(m), k, '0');
    assert PadStart([], k - 1, '0') == Repeat('0', k - 1);
  }

  /** A number below 10^k, zero-padded to k characters, is exactly its
      k-digit fixed-width field. */
  lemma {:induction false} ZeroPaddedIsFixed(m: nat, k: nat)
    requires k >= 1 && m < Pow10(k)
    ensures PadStart(Digits(m), k, '0') == FixedDigits(m, k)
  {
    if m < 10 {
      PaddedDigit(m, k);
    } else {
      ZeroPaddedIsFixed(m / 10, k - 1);
      DigitsFit(m / 10, k - 1);
      PadStartAppend(Digits(m / 10), DigitChar(m % 10), k, '0');
    }
  }

  /** A string of zeros denotes 0. */
  lemma {:induction false} ParseZeros(z: string)
    requires forall i :: 0 <= i < |z| ==> z[i] == '0'
    ensures AllDigits(z) && ParseDigits(z) == 0
  {
    if z != [] {
      ParseZeros(z[..|z| - 1]);
    }
  }

  /** Leading zeros do not change the number a digit string denotes. */
  lemma {:induction false} ParseLeadingZeros(z: string, s: string)
    requires forall i :: 0 <= i < |z| ==> z[i] == '0'
    requires AllDigits(s)
    ensures AllDigits(z + s) && ParseDigits(z + s) == ParseDigits(s)
  {
    if s == [] {
      assert z + s == z;
      ParseZeros(z);
    } else {
      var s' := s[..|s| - 1];
      ParseLeadingZeros(z, s');
      assert (z + s)[..|z + s| - 1] == z + s';
    }
  }

  /** Padding with '0' keeps the digits and the value. */
  lemma ZeroPadPreservesValue(s: string, width: nat)
    requires AllDigits(s)
    ensures AllDigits(PadStart(s, width, '0'))
    ensures ParseDigits(PadStart(s, width, '0')) == ParseDigits(s)
  {
    if |s| < width {
      ParseLeadingZeros(Repeat('0', width - |s|), s);
    }
  }

  /** Two digit characters read as tens and units. */
  lemma ParseTwoDigits(tens: char, units: char)
    requires IsDigit(tens) && IsDigit(units)
    ensures ParseDigits([tens, units]) == DigitValue(tens) * 10 + DigitValue(units)
  {
    assert ParseDigits([tens]) == DigitValue(tens) by {
      assert [tens][..0] == [];
    }
    assert [tens, units][..1] == [tens];
  }

  /** A number below 100, padded to two characters, is its tens digit
      followed by its units digit. */
  lemma TwoDigits(m: nat)
    requires m < 100
    ensures PadStart(Digits(m), 2, '0') == [DigitChar(m / 10), DigitChar(m % 10)]
  {
    if m >= 10 {
      assert Digits(m / 10) == [DigitChar(m / 10)];
    }
  }
}
