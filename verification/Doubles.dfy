/** IEEE 754 doubles as the real numbers they denote, and the integers that the two number readers take them for. */
module Doubles {
  import opened Values

  /** Two to the power e. */
  function Power(e: int): (r: real)
    ensures r > 0.0
    decreases if e >= 0 then e else -e
  {
    if e == 0 then 1.0 else if e > 0 then 2.0 * Power(e - 1) else Power(e + 1) / 2.0
  }

  /** The biased exponent and the fraction of a double. */
  function Exponent(bits: word64): int { bits / 0x10_0000_0000_0000 % 2048 }

  function Fraction(bits: word64): int { bits % 0x10_0000_0000_0000 }

  /** The number that a finite double denotes, as section 3.4 of IEEE 754-2008 gives it. */
  function Real(bits: word64): real
    requires Exponent(bits) != 2047
  {
    var fraction := Fraction(bits) as real / Power(52);
    var sign := if bits < 0x8000_0000_0000_0000 then 1.0 else -1.0;
    if Exponent(bits) == 0 then sign * fraction * Power(-1022)
    else sign * (1.0 + fraction) * Power(Exponent(bits) - 1023)
  }

  lemma {:induction false} PowerIsPow2(n: nat)
    ensures Power(n) == Pow2(n) as real
  {
    if n > 0 {
      PowerIsPow2(n - 1);
    }
  }

  lemma {:induction false} PowerOfMinus(n: int)
    requires n >= 0
    ensures Power(-n) * Power(n) == 1.0
  {
    if n > 0 {
      PowerOfMinus(n - 1);
      assert Power(-n) == Power(-(n - 1)) / 2.0;
    }
  }

  lemma {:induction false} PowerLess(e: int, n: nat)
    ensures Power(e) == Power(n) * Power(e - n)
  {
    if n > 0 {
      PowerLess(e, n - 1);
      PowerStep(e - n);
      assert Power(n) * Power(e - n) == Power(n - 1) * (2.0 * Power(e - n));
    }
  }

  lemma PowerStep(e: int)
    ensures Power(e + 1) == 2.0 * Power(e)
  {
  }

  /** The significand of 53 bits, as an integer, and its exponent. */
  function Significand(bits: word64): int { Fraction(bits) + if Exponent(bits) == 0 then 0 else 0x10_0000_0000_0000 }

  function Scale(bits: word64): int { (if Exponent(bits) == 0 then 1 else Exponent(bits)) - 1075 }

  lemma RealIsScaled(bits: word64)
    requires Exponent(bits) != 2047
    ensures var sign := if bits < 0x8000_0000_0000_0000 then 1.0 else -1.0;
            Real(bits) == sign * (Significand(bits) as real * Power(Scale(bits)))
  {
    hide Power;
    OfUnit();
    PowerIsPow2(52);
    var unit := Power(52);
    assert unit == 4503599627370496.0;
    var f := Fraction(bits) as real;
    var e := Scale(bits) + 52;
    PowerLess(e, 52);
    assert Power(e) == unit * Power(Scale(bits));
    var p := Power(Scale(bits));
    assert f / unit * (unit * p) == f * p;
  }

  lemma Divided(m: int, p: int, n: int)
    requires p >= 1
    ensures m == n * p <==> m % p == 0 && m / p == n
  {
    if m == n * p {
      assert m == p * n;
      assert m % p == 0 && m / p == n by { Exact(n, p); }
    }
  }

  lemma Exact(n: int, p: int)
    requires p >= 1
    ensures (n * p) % p == 0 && (n * p) / p == n
  {
    var q, r := (n * p) / p, (n * p) % p;
    assert n * p == q * p + r;
    assert (n - q) * p == r;
    if n > q {
      AtLeastOnce(n - q, p);
    } else if n < q {
      AtLeastOnce(q - n, p);
    }
  }

  lemma AtLeastOnce(k: int, p: int)
    requires k >= 1 && p >= 1
    ensures k * p >= p
  {
    assert k * p == p + (k - 1) * p;
  }

  /** m over 2^k is the integer n exactly when 2^k divides m that many times. */
  lemma ScaledDown(m: int, k: int, n: int)
    requires k >= 0
    ensures m as real * Power(-k) == n as real <==> m % Pow2(k) == 0 && m / Pow2(k) == n
  {
    hide Power;
    PowerOfMinus(k);
    PowerIsPow2(k);
    Divided(m, Pow2(k), n);
    var up, down := Power(k), Power(-k);
    if m as real * down == n as real {
      assert m as real * (down * up) == n as real * up;
      assert m as real == (n * Pow2(k)) as real;
    }
    if m == n * Pow2(k) {
      assert m as real == n as real * up;
      assert m as real * down == n as real * (up * down);
    }
  }

  /** The same with a sign of 1 or -1 in front. */
  lemma SignedDown(sign: int, m: int, k: int, n: int)
    requires k >= 0 && sign in {1, -1}
    ensures sign as real * (m as real * Power(-k)) == n as real <==> m % Pow2(k) == 0 && sign * (m / Pow2(k)) == n
  {
    hide Power, Pow2;
    ScaledDown(m, k, sign * n);
  }

  lemma SignedUp(sign: int, m: int, k: nat, n: int)
    ensures sign as real * (m as real * Power(k)) == n as real <==> sign * (m * Pow2(k)) == n
  {
    hide Power, Pow2;
    PowerIsPow2(k);
    assert sign as real * (m as real * Power(k)) == (sign * (m * Pow2(k))) as real;
  }

  lemma IntegerInParts(bits: word64)
    ensures var sign := if bits < 0x8000_0000_0000_0000 then 1 else -1;
            var m, e := Significand(bits), Scale(bits);
            IntegerOfDouble(bits) ==
            if Exponent(bits) == 2047 then None
            else if e >= 0 then Some(sign * (m * Pow2(e)))
            else if m % Pow2(-e) == 0 then Some(sign * (m / Pow2(-e)))
            else None
  {
    hide Pow2;
  }

  /**
   * A double is read as the integer n exactly when it is finite and the real number it denotes is n: fractions,
   * infinities and NaN are not read, whatever their size.
   */
  lemma ReadAsDenoted(bits: word64, n: int)
    ensures IntegerOfDouble(bits) == Some(n) <==> Exponent(bits) != 2047 && Real(bits) == n as real
  {
    hide Power, Real, Pow2, IntegerOfDouble, Significand, Scale, Exponent;
    IntegerInParts(bits);
    if Exponent(bits) != 2047 {
      RealIsScaled(bits);
      var sign := if bits < 0x8000_0000_0000_0000 then 1 else -1;
      if Scale(bits) >= 0 {
        SignedUp(sign, Significand(bits), Scale(bits), n);
      } else {
        SignedDown(sign, Significand(bits), -Scale(bits), n);
      }
    }
  }

  /** The two readers of numbers: within 64 bits, and within the integers that doubles hold exactly. */
  lemma NumbersAreExact(v: Value, n: int)
    ensures IntOf(v) == Some(n) <==>
            || (v.Int32? && v.small == n) || (v.Int64? && v.large == n)
            || (v.Double? && Exponent(v.bits) != 2047 && Real(v.bits) == n as real &&
                -9_223_372_036_854_775_808 <= n <= 9_223_372_036_854_775_807)
    ensures AuthNumber(v) == Some(n) <==>
            || (v.Int32? && v.small == n) || (v.Int64? && v.large == n)
            || (v.Double? && Exponent(v.bits) != 2047 && Real(v.bits) == n as real &&
                -9_007_199_254_740_992 <= n <= 9_007_199_254_740_992)
  {
    hide IntegerOfDouble, Real;
    if v.Double? {
      ReadAsDenoted(v.bits, n);
    }
  }
}
