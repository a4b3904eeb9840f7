/** Python's integer conversions and decimal rendering, written out over unbounded
    integers: `int(x)` on a float, `str(n)` on an int, `str.zfill`, and the integer
    square root that stands in for `int(k * math.sqrt(3))`. */
module Numerics {
  import opened Errors

  /** Python's `int(x)` for a float `x`: truncation toward zero. */
  function Trunc(x: real): (n: int)
    ensures 0.0 <= x ==> 0 <= n && n as real <= x < n as real + 1.0
    ensures x < 0.0 ==> n <= 0 && n as real - 1.0 < x <= n as real
  {
    if x >= 0.0 then x.Floor else -((-x).Floor)
  }

  /** The integer square root: the largest r with r * r <= n. */
  function ISqrt(n: nat): (r: nat)
    ensures r * r <= n < (r + 1) * (r + 1)
  {
    if n == 0 then 0
    else
      var s := ISqrt(n - 1);
      if (s + 1) * (s + 1) <= n then s + 1 else s
  }

  /** A squared integer bound gives a lower bound on the square root. */
  lemma ISqrtAtLeast(n: nat, k: nat)
    requires k * k <= n
    ensures k <= ISqrt(n)
  {
    var r := ISqrt(n);
    if r < k {
      assert r + 1 <= k;
      assert (r + 1) * (r + 1) <= k * k by {
        MulMonotone(r + 1, k);
      }
      assert false;
    }
  }

  lemma MulMonotone(a: nat, b: nat)
    requires a <= b
    ensures a * a <= b * b
  {
    assert a * a <= a * b;
    assert a * b <= b * b;
  }

  // ---------------------------------------------------------------------------
  // Decimal rendering, as Python's str() of an int

  predicate IsDigit(c: char) { '0' <= c <= '9' }

  predicate AllDigits(s: string) { forall i :: 0 <= i < |s| ==> IsDigit(s[i]) }

  function DigitChar(d: nat): (c: char)
    requires d < 10
    ensures IsDigit(c)
  {
    ('0' as int + d) as char
  }

  function DigitValue(c: char): (d: nat)
    requires IsDigit(c)
    ensures d < 10 && DigitChar(d) == c
  {
    c as int - '0' as int
  }

  /** The canonical decimal digits of a natural number: no leading zero unless the
      number itself is zero. */
  function NatDecimal(n: nat): (s: string)
    ensures |s| >= 1 && AllDigits(s)
    ensures |s| > 1 ==> s[0] != '0'
    decreases n
  {
    if n < 10 then [DigitChar(n)] else NatDecimal(n / 10) + [DigitChar(n % 10)]
  }

  /** Python's `str(n)` for an int: a minus sign, then the digits of |n|. */
  function IntDecimal(n: int): (s: string)
    ensures |s| >= 1
    ensures n < 0 <==> s[0] == '-'
    ensures n >= 0 ==> AllDigits(s)
    ensures n < 0 ==> |s| >= 2 && AllDigits(s[1..])
  {
    if n < 0 then "-" + NatDecimal(-n) else NatDecimal(n)
  }

  /** The base-10 value of a string of digits, leading zeros allowed. */
  function DigitsValue(s: string): nat
    requires AllDigits(s)
  {
    if |s| == 0 then 0 else 10 * DigitsValue(s[..|s| - 1]) + DigitValue(s[|s| - 1])
  }

  /** Reading a decimal integer, an optional minus sign followed by one or more
      digits; the partner of `IntDecimal`. */
  function ParseInt(s: string): Option<int>
  {
    if |s| >= 2 && s[0] == '-' && AllDigits(s[1..]) then Some(-(DigitsValue(s[1..]) as int))
    else if |s| >= 1 && AllDigits(s) then Some(DigitsValue(s))
    else None
  }

  lemma {:induction false} NatDecimalValue(n: nat)
    ensures DigitsValue(NatDecimal(n)) == n
    decreases n
  {
    if n >= 10 {
      var s := NatDecimal(n);
      assert s[..|s| - 1] == NatDecimal(n / 10);
      NatDecimalValue(n / 10);
    }
  }

  /** `str(n)` reads back as `n`. */
  lemma IntDecimalRoundTrip(n: int)
    ensures ParseInt(IntDecimal(n)) == Some(n)
  {
    if n < 0 {
      NegativeRoundTrip(-n);
    } else {
      NatDecimalValue(n);
      UnsignedParse(NatDecimal(n));
    }
  }

  lemma NegativeRoundTrip(m: nat)
    ensures ParseInt("-" + NatDecimal(m)) == Some(-(m as int))
  {
    NatDecimalValue(m);
    NegativeParse(NatDecimal(m));
  }

  lemma UnsignedParse(s: string)
    requires |s| >= 1 && AllDigits(s)
    ensures ParseInt(s) == Some(DigitsValue(s))
  {
    assert IsDigit(s[0]);
  }

  lemma NegativeParse(t: string)
    requires |t| >= 1 && AllDigits(t)
    ensures ParseInt("-" + t) == Some(-(DigitsValue(t) as int))
  {
    assert ("-" + t)[1..] == t;
  }

  // ---------------------------------------------------------------------------
  // str.zfill

  function Zeros(n: nat): (z: string)
    ensures |z| == n && AllDigits(z)
  {
    seq(n, _ => '0')
  }

  /** Python's `s.zfill(width)`: pad with '0' on the left up to `width` characters,
      putting the padding after a leading sign. */
  function ZFill(s: string, width: int): (r: string)
    ensures |s| >= width ==> r == s
    ensures |s| < width ==> |r| == width
    ensures |s| < width && !(|s| > 0 && (s[0] == '+' || s[0] == '-')) ==>
              r[width - |s|..] == s && r[..width - |s|] == Zeros(width - |s|)
    ensures |s| < width && |s| > 0 && (s[0] == '+' || s[0] == '-') ==>
              r[0] == s[0] && r[width - |s| + 1..] == s[1..]
              && r[1..width - |s| + 1] == Zeros(width - |s|)
  {
    if |s| >= width then s
    else if |s| > 0 && (s[0] == '+' || s[0] == '-') then [s[0]] + Zeros(width - |s|) + s[1..]
    else Zeros(width - |s|) + s
  }

  /** Leading zeros do not change the value of a digit string. */
  lemma {:induction false} LeadingZerosValue(k: nat, s: string)
    requires AllDigits(s)
    ensures AllDigits(Zeros(k) + s)
    ensures DigitsValue(Zeros(k) + s) == DigitsValue(s)
    decreases |s|
  {
    var z := Zeros(k) + s;
    assert AllDigits(z) by {
      forall i | 0 <= i < |z| ensures IsDigit(z[i]) {
        if i >= k { assert z[i] == s[i - k]; }
      }
    }
    if |s| == 0 {
      assert z == Zeros(k);
      ZerosValue(k);
    } else {
      assert z[..|z| - 1] == Zeros(k) + s[..|s| - 1];
      LeadingZerosValue(k, s[..|s| - 1]);
    }
  }

  lemma {:induction false} ZerosValue(k: nat)
    ensures DigitsValue(Zeros(k)) == 0
  {
    if k > 0 {
      assert Zeros(k)[..k - 1] == Zeros(k - 1);
      ZerosValue(k - 1);
    }
  }

  /** Zero-filling the decimal rendering of a non-negative int keeps the number it
      denotes. */
  lemma ZFillKeepsValue(n: nat, width: int)
    ensures ParseInt(ZFill(IntDecimal(n), width)) == Some(n)
  {
    NatDecimalValue(n);
    PadUnsigned(NatDecimal(n), width);
  }

  /** Zero-filling digits keeps the number they denote. */
  lemma PadUnsigned(t: string, width: int)
    requires |t| >= 1 && AllDigits(t)
    ensures ParseInt(ZFill(t, width)) == Some(DigitsValue(t))
  {
    if |t| < width {
      var k := width - |t|;
      ZFillUnsigned(t, k);
      PaddedDigits(t, k);
      UnsignedParse(Zeros(k) + t);
    } else {
      UnsignedParse(t);
    }
  }

  /** zfill puts the zeros in front of a string that does not start with a sign. */
  lemma ZFillUnsigned(t: string, k: nat)
    requires |t| >= 1 && IsDigit(t[0])
    ensures ZFill(t, |t| + k) == Zeros(k) + t
  {
    if k == 0 {
      assert Zeros(k) + t == t;
    }
  }

  lemma PaddedDigits(t: string, k: nat)
    requires |t| >= 1 && AllDigits(t)
    ensures |Zeros(k) + t| >= 1 && AllDigits(Zeros(k) + t)
    ensures DigitsValue(Zeros(k) + t) == DigitsValue(t)
  {
    LeadingZerosValue(k, t);
  }
}
