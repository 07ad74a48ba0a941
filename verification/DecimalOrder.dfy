/**
 Normal forms: which decimals normalization leaves alone, that equal nonnegative values get the
 same representation, and that it keeps the order of nonnegative values. For negative values the
 source's digit estimate breaks idempotence; the exact condition is given, with an input. What else
 holds of negative values is in DecimalNegative.
 */
module DecimalOrder {
  import opened Powers
  import opened Decimal
  import opened DecimalRounding

  // --- Comparing values -------------------------------------------------------------------------

  /** The coefficient of x written at scale s. */
  function AtScale(x: GD, s: int): (c: int)
    requires s >= x.scale
  {
    x.coeff * Pow10(s - x.scale)
  }

  function MaxScale(x: GD, y: GD): (s: int)
  {
    if x.scale <= y.scale then y.scale else x.scale
  }

  /** The value of x is at most the value of y. */
  predicate ValueLe(x: GD, y: GD)
  {
    AtScale(x, MaxScale(x, y)) <= AtScale(y, MaxScale(x, y))
  }

  predicate SameValue(x: GD, y: GD)
  {
    ValueLe(x, y) && ValueLe(y, x)
  }

  lemma AtScaleGrows(x: GD, s: int, t: int)
    requires x.scale <= s <= t
    ensures AtScale(x, t) == AtScale(x, s) * Pow10(t - s)
  {
    Pow10Add(s - x.scale, t - s);
    MulAssoc(x.coeff, Pow10(s - x.scale), Pow10(t - s));
  }

  lemma ValueLeAt(x: GD, y: GD, s: int)
    requires s >= x.scale && s >= y.scale
    ensures ValueLe(x, y) <==> AtScale(x, s) <= AtScale(y, s)
  {
    var m := MaxScale(x, y);
    AtScaleGrows(x, m, s);
    AtScaleGrows(y, m, s);
    var a, b, p := AtScale(x, m), AtScale(y, m), Pow10(s - m);
    if a <= b {
      MulMono(a, b, p);
    } else {
      MulStrict(b, a, p);
    }
  }

  lemma ValueLeTransitive(x: GD, y: GD, z: GD)
    requires ValueLe(x, y) && ValueLe(y, z)
    ensures ValueLe(x, z)
  {
    var s := MaxScale(GD(0, MaxScale(x, y)), z);
    ValueLeAt(x, y, s);
    ValueLeAt(y, z, s);
    ValueLeAt(x, z, s);
  }

  lemma StripKeepsValue(coeff: int, scale: int)
    requires coeff != 0
    ensures SameValue(Strip(coeff, scale), GD(coeff, scale))
  {
    var t := Strip(coeff, scale);
    assert AtScale(GD(coeff, scale), scale) == coeff * Pow10(0);
    assert AtScale(t, scale) == coeff;
  }

  lemma {:induction false} StripOfShifted(c: int, s: int, n: nat)
    requires c != 0 && c % 10 != 0
    ensures c * Pow10(n) != 0
    ensures Strip(c * Pow10(n), s + n) == GD(c, s)
    decreases n
  {
    if n > 0 {
      StripOfShifted(c, s, n - 1);
      TimesTen(c, Pow10(n - 1));
      StripTen(c * Pow10(n - 1), s + n);
    }
  }

  // --- Fixed points and idempotence -------------------------------------------------------------

  predicate IsNormal(x: GD)
  {
    x == ZERO || (x.coeff % 10 != 0 && CountDigits(x.coeff) <= MAX_SIGNIFICANT_DIGITS)
  }

  /** Normalization leaves a decimal alone exactly when it is ZERO or has at most 34 counted digits and no trailing zero. */
  lemma NormalizeFixedPoints(x: GD)
    ensures Normalize(x) == x <==> IsNormal(x)
  {
    if x.coeff != 0 && x.coeff % 10 != 0 {
      var c, d := Abs(x.coeff), CountDigits(x.coeff);
      if d <= MAX_SIGNIFICANT_DIGITS {
        StripOfShifted(x.coeff, x.scale, MAX_SIGNIFICANT_DIGITS - d);
      } else {
        WithPrecKeepsSign(x, MAX_SIGNIFICANT_DIGITS);
        TruncationShrinks(x);
      }
    }
  }

  /** With more than 34 counted digits, rounding makes the coefficient strictly smaller in magnitude. */
  lemma TruncationShrinks(x: GD)
    requires x.coeff != 0 && CountDigits(x.coeff) > MAX_SIGNIFICANT_DIGITS
    ensures Abs(WithPrec(x, MAX_SIGNIFICANT_DIGITS).coeff) < Abs(x.coeff)
  {
    var c, n := Abs(x.coeff), CountDigits(x.coeff) - MAX_SIGNIFICANT_DIGITS;
    EnoughDigits(c, n + 1, n + MAX_SIGNIFICANT_DIGITS);
    DroppingShrinks(c, n);
    if x.coeff < 0 {
      NegativeWithPrec(c, x.scale, MAX_SIGNIFICANT_DIGITS);
    }
  }

  lemma DroppingShrinks(c: nat, n: nat)
    requires n >= 1 && Pow10(n + 1) <= c
    ensures DropDigits(c, n) + 1 < c
  {
    Pow10Mono(1, n);
    assert Pow10(1) == 10;
    QuotientMuchSmaller(c, Pow10(n));
  }

  lemma QuotientMuchSmaller(c: nat, p: nat)
    requires p >= 10 && c >= 10
    ensures c / p + 1 < c
  {
    var q := c / p;
    DivBounds(c, p);
    MulMono(10, p, q);
    assert p * q == q * p;
    assert 10 * q <= c;
  }

  lemma NormalizedFitsPrecision(x: GD)
    requires x.coeff > 0
    ensures 0 < Normalize(x).coeff < Pow10(MAX_SIGNIFICANT_DIGITS)
    ensures DigitCount(Normalize(x).coeff) <= MAX_SIGNIFICANT_DIGITS
  {
    NormalizeRounds(x);
    RoundFits(MAX_SIGNIFICANT_DIGITS, x.coeff, 1, x.scale);
    FewDigits(Normalize(x).coeff, MAX_SIGNIFICANT_DIGITS);
  }

  lemma FewDigits(c: nat, n: nat)
    requires 0 < c < Pow10(n)
    ensures DigitCount(c) <= n
  {
    DigitBounds(c);
    Pow10StrictInverse(DigitCount(c) - 1, n);
  }

  lemma {:induction false} RoundFits(prec: nat, num: nat, den: nat, s: int)
    requires prec >= 1 && num > 0 && den > 0
    ensures 0 < RoundHalfUp(prec, num, den, s).coeff < Pow10(prec)
    decreases ShiftsLeft(prec, num, den)
  {
    var p := Pow10(prec - 1);
    var lo := p * den;
    PositiveProduct(p, den);
    if num < lo {
      RoundFits(prec, 10 * num, den, s + 1);
    } else if num >= 10 * lo {
      TimesTen(p, den);
      RoundFits(prec, num, 10 * den, s - 1);
    } else {
      RoundedQuotientPositive(num, den, prec);
      RoundedQuotientInRange(prec, num, den);
      StripBelow(RoundedQuotient(num, den), s, prec);
    }
  }

  lemma StripBelow(m: nat, s: int, prec: nat)
    requires prec >= 1 && 0 < m <= Pow10(prec)
    ensures 0 < Strip(m, s).coeff < Pow10(prec)
  {
    assert Pow10(prec) == 10 * Pow10(prec - 1);
  }

  lemma RoundedQuotientInRange(prec: nat, num: nat, den: nat)
    requires prec >= 1 && den > 0
    requires Pow10(prec - 1) * den <= num < 10 * (Pow10(prec - 1) * den)
    ensures Pow10(prec - 1) <= RoundedQuotient(num, den) <= Pow10(prec)
  {
    var p, q := Pow10(prec - 1), RoundedQuotient(num, den);
    RoundedQuotientBounds(num, den, q);
    // 2 p den <= 2 num < (2q + 1) den and (2q - 1) den <= 2 num < 2 (10p) den
    assert (2 * q + 1) * den == 2 * (q * den) + den;
    assert (2 * q - 1) * den == 2 * (q * den) - den;
    assert (2 * p) * den == 2 * (p * den);
    assert (20 * p) * den == 20 * (p * den);
    MulCancelLt(2 * p, 2 * q + 1, den);
    MulCancelLt(2 * q - 1, 20 * p, den);
  }

  /** When a negative decimal keeps 35 digits that will be counted as 35 the next time. */
  predicate KeepsDigitTooMany(x: GD)
  {
    x.coeff < 0 &&
    var e := CountDigits(x.coeff);
    e > MAX_SIGNIFICANT_DIGITS &&
    var q := DropDigits(Abs(x.coeff), e - MAX_SIGNIFICANT_DIGITS);
    q % 10 != 0 && TenExponent(Bits(q)) > MAX_SIGNIFICANT_DIGITS
  }

  /** Normalization is idempotent on every nonnegative decimal, and on a negative one exactly when it does not keep a digit too many. */
  lemma NormalizeIdempotentIff(x: GD)
    ensures Normalize(Normalize(x)) == Normalize(x) <==> !KeepsDigitTooMany(x)
    ensures x.coeff >= 0 ==> Normalize(Normalize(x)) == Normalize(x)
  {
    NormalizeFixedPoints(Normalize(x));
    if x.coeff > 0 {
      NormalizedFitsPrecision(x);
    } else if x.coeff < 0 {
      NegativeNormalCount(x);
    }
  }

  lemma NegativeNormalCount(x: GD)
    requires x.coeff < 0
    ensures CountDigits(Normalize(x).coeff) > MAX_SIGNIFICANT_DIGITS <==> KeepsDigitTooMany(x)
  {
    if CountDigits(x.coeff) <= MAX_SIGNIFICANT_DIGITS {
      PaddedNormalCount(x);
    } else {
      TruncatedNormalCount(x);
    }
  }

  lemma PaddedNormalCount(x: GD)
    requires x.coeff < 0 && CountDigits(x.coeff) <= MAX_SIGNIFICANT_DIGITS
    ensures CountDigits(Normalize(x).coeff) <= MAX_SIGNIFICANT_DIGITS
  {
    var n := MAX_SIGNIFICANT_DIGITS - CountDigits(x.coeff);
    StripOfProduct(x.coeff, x.scale, n);
    assert Normalize(x) == Strip(x.coeff * Pow10(n), x.scale + n);
    EstimateMonotone(Abs(Normalize(x).coeff), Abs(x.coeff));
  }

  lemma TruncatedNormalCount(x: GD)
    requires x.coeff < 0 && CountDigits(x.coeff) > MAX_SIGNIFICANT_DIGITS
    ensures CountDigits(Normalize(x).coeff) > MAX_SIGNIFICANT_DIGITS <==> KeepsDigitTooMany(x)
  {
    CutNegativeCount(x, MAX_SIGNIFICANT_DIGITS);
  }

  lemma CutNegativeCount(x: GD, prec: nat)
    requires x.coeff < 0 && CountDigits(x.coeff) > prec >= 1
    ensures var t := WithPrec(x, prec);
            var q := DropDigits(Abs(x.coeff), CountDigits(x.coeff) - prec);
            t.coeff != 0 &&
            (CountDigits(Strip(t.coeff, t.scale).coeff) > prec <==> q % 10 != 0 && TenExponent(Bits(q)) > prec)
  {
    var n := CountDigits(x.coeff) - prec;
    TruncatedDigits(Abs(x.coeff), prec);
    NegativeWithPrec(Abs(x.coeff), x.scale, prec);
    NegativeStripCount(DropDigits(Abs(x.coeff), n), x.scale - n, prec);
  }

  /** A negative coefficient is cut toward zero, with no rounding term. */
  lemma NegativeWithPrec(c: int, s: int, prec: nat)
    requires c > 0 && CountDigits(-c) > prec
    ensures var n := CountDigits(-c) - prec;
            var q: int := DropDigits(c, n);
            WithPrec(GD(-c, s), prec) == GD(-q, s - n)
  {
    var p := Pow10(CountDigits(-c) - prec);
    assert TruncRem(-c, p) <= 0;
  }

  /** Stripping a negative coefficient of at most n + 1 digits. */
  lemma NegativeStripCount(q: int, s: int, n: nat)
    requires 0 < q < 10 * Pow10(n)
    ensures CountDigits(Strip(-q, s).coeff) > n <==> q % 10 != 0 && TenExponent(Bits(q)) > n
  {
    NegatedDivisibility(q);
    if q % 10 == 0 {
      StripDropsADigit(-q, s);
      var a := Abs(Strip(-q, s).coeff);
      FewDigitsEstimate(a, n);
      assert CountDigits(Strip(-q, s).coeff) == TenExponent(Bits(a));
    } else {
      assert Strip(-q, s) == GD(-q, s);
      assert CountDigits(-q) == TenExponent(Bits(q));
    }
  }

  lemma NegatedDivisibility(q: int)
    ensures -q % 10 == 0 <==> q % 10 == 0
  {
  }

  lemma StripDropsADigit(c: int, s: int)
    requires c != 0 && c % 10 == 0
    ensures 10 * Abs(Strip(c, s).coeff) <= Abs(c)
  {
    assert Strip(c, s) == Strip(c / 10, s - 1);
  }

  lemma FewDigitsEstimate(c: nat, n: nat)
    requires 0 < c < Pow10(n)
    ensures TenExponent(Bits(c)) <= n
  {
    EstimateIsCloseToDigitCount(c);
    FewDigits(c, n);
  }

  lemma {:induction false} StripOfProduct(c: int, s: int, n: nat)
    requires c != 0
    ensures c * Pow10(n) != 0
    ensures Abs(Strip(c * Pow10(n), s + n).coeff) <= Abs(c)
    decreases n
  {
    ProductSign(c, Pow10(n));
    if n > 0 {
      StripOfProduct(c, s, n - 1);
      TimesTen(c, Pow10(n - 1));
      StripTen(c * Pow10(n - 1), s + n);
    } else {
      assert c * Pow10(0) == c;
    }
  }

  lemma EstimateMonotone(x: nat, y: nat)
    requires 0 < x <= y
    ensures TenExponent(Bits(x)) <= TenExponent(Bits(y))
  {
    BitsBounds(x);
    BitsBounds(y);
    if Bits(x) > Bits(y) {
      Pow2Mono(Bits(y), Bits(x) - 1);
    }
    Pow2Mono(Bits(x), Bits(y));
    DigitBounds(Pow2(Bits(x)));
    DigitBounds(Pow2(Bits(y)));
    Pow10StrictInverse(DigitCount(Pow2(Bits(x))) - 1, DigitCount(Pow2(Bits(y))));
  }

  lemma TruncatedDigits(c: nat, prec: nat)
    requires c > 0 && TenExponent(Bits(c)) > prec >= 1
    ensures 0 < DropDigits(c, TenExponent(Bits(c)) - prec) < 10 * Pow10(prec)
  {
    var e := TenExponent(Bits(c));
    var n := e - prec;
    EnoughDigits(c, n, e);
    QuotientPositive(c, Pow10(n));
    EstimateBounds(c);
    Pow10Add(prec + 1, n);
    assert c < Pow10(prec + 1) * Pow10(n) by { assert e + 1 == prec + 1 + n; }
    DivBounds(c, Pow10(n));
    MulCancelLt(c / Pow10(n), Pow10(prec + 1), Pow10(n));
  }

  // --- Canonical form and monotonicity ----------------------------------------------------------

  /** Nonnegative decimals of equal value normalize to one representation. */
  lemma NormalizeIsCanonical(x: GD, y: GD)
    requires x.coeff >= 0 && y.coeff >= 0 && SameValue(x, y)
    ensures Normalize(x) == Normalize(y)
  {
    if x.scale <= y.scale {
      RescaledIsCanonical(x, y);
    } else {
      RescaledIsCanonical(y, x);
    }
  }

  lemma RescaledIsCanonical(x: GD, y: GD)
    requires x.coeff >= 0 && x.scale <= y.scale && SameValue(x, y)
    ensures Normalize(x) == Normalize(y)
  {
    var n := y.scale - x.scale;
    AtOwnScale(y);
    ProductSign(x.coeff, Pow10(n));
    if x.coeff > 0 {
      NormalizeRounds(x);
      NormalizeRounds(y);
      RoundShiftNumBy(MAX_SIGNIFICANT_DIGITS, x.coeff, 1, x.scale, n);
    }
  }

  lemma AtOwnScale(x: GD)
    ensures AtScale(x, x.scale) == x.coeff
  {
  }

  lemma {:induction false} RoundUpperBound(prec: nat, num: nat, den: nat, s: int)
    requires prec >= 1 && num > 0 && den > 0 && num < 10 * (Pow10(prec - 1) * den)
    ensures ValueLe(RoundHalfUp(prec, num, den, s), GD(Pow10(prec), s))
    decreases ShiftsLeft(prec, num, den)
  {
    var lo := Pow10(prec - 1) * den;
    PositiveProduct(Pow10(prec - 1), den);
    if num < lo {
      RoundUpperBound(prec, 10 * num, den, s + 1);
      CoarserScale(Pow10(prec), s);
      ValueLeTransitive(RoundHalfUp(prec, num, den, s), GD(Pow10(prec), s + 1), GD(Pow10(prec), s));
    } else {
      RoundedQuotientPositive(num, den, prec);
      RoundedQuotientInRange(prec, num, den);
      var m := RoundedQuotient(num, den);
      StripKeepsValue(m, s);
      ValueLeAt(GD(m, s), GD(Pow10(prec), s), s);
      ValueLeTransitive(Strip(m, s), GD(m, s), GD(Pow10(prec), s));
    }
  }

  lemma {:induction false} RoundLowerBound(prec: nat, num: nat, den: nat, s: int)
    requires prec >= 1 && num > 0 && den > 0 && num >= Pow10(prec - 1) * den
    ensures ValueLe(GD(Pow10(prec - 1), s), RoundHalfUp(prec, num, den, s))
    decreases ShiftsLeft(prec, num, den)
  {
    var p := Pow10(prec - 1);
    var lo := p * den;
    PositiveProduct(p, den);
    if num >= 10 * lo {
      TimesTen(p, den);
      RoundLowerBound(prec, num, 10 * den, s - 1);
      CoarserScale(p, s - 1);
      ValueLeTransitive(GD(p, s), GD(p, s - 1), RoundHalfUp(prec, num, den, s));
    } else {
      RoundedQuotientPositive(num, den, prec);
      RoundedQuotientInRange(prec, num, den);
      var m := RoundedQuotient(num, den);
      StripKeepsValue(m, s);
      ValueLeAt(GD(p, s), GD(m, s), s);
      ValueLeTransitive(GD(p, s), GD(m, s), Strip(m, s));
    }
  }

  lemma CoarserScale(c: nat, s: int)
    ensures ValueLe(GD(c, s + 1), GD(c, s))
    ensures SameValue(GD(10 * c, s + 1), GD(c, s))
  {
    assert Pow10(1) == 10 && Pow10(0) == 1;
  }

  /** Rounding a larger numerator gives a larger value. */
  lemma {:induction false} RoundMonotone(prec: nat, num: nat, num': nat, den: nat, s: int)
    requires prec >= 1 && 0 < num <= num' && den > 0
    ensures ValueLe(RoundHalfUp(prec, num, den, s), RoundHalfUp(prec, num', den, s))
    decreases ShiftsLeft(prec, num, den)
  {
    var p := Pow10(prec - 1);
    var lo := p * den;
    PositiveProduct(p, den);
    var r, r' := RoundHalfUp(prec, num, den, s), RoundHalfUp(prec, num', den, s);
    if num' < lo {
      RoundMonotone(prec, 10 * num, 10 * num', den, s + 1);
    } else if num < lo {
      RoundUpperBound(prec, 10 * num, den, s + 1);
      CoarserScale(p, s);
      RoundLowerBound(prec, num', den, s);
      ValueLeTransitive(r, GD(10 * p, s + 1), GD(p, s));
      ValueLeTransitive(r, GD(p, s), r');
    } else if num >= 10 * lo {
      TimesTen(p, den);
      RoundMonotone(prec, num, num', 10 * den, s - 1);
    } else if num' >= 10 * lo {
      TimesTen(p, den);
      RoundUpperBound(prec, num, den, s);
      CoarserScale(p, s - 1);
      RoundLowerBound(prec, num', 10 * den, s - 1);
      ValueLeTransitive(r, GD(10 * p, s), GD(p, s - 1));
      ValueLeTransitive(r, GD(p, s - 1), r');
    } else {
      InRangeMonotone(prec, num, num', den, s);
    }
  }

  lemma InRangeMonotone(prec: nat, num: nat, num': nat, den: nat, s: int)
    requires prec >= 1 && den > 0 && 0 < num <= num'
    requires Pow10(prec - 1) * den <= num && num' < 10 * (Pow10(prec - 1) * den)
    ensures ValueLe(RoundHalfUp(prec, num, den, s), RoundHalfUp(prec, num', den, s))
  {
    var m, m' := RoundedQuotient(num, den), RoundedQuotient(num', den);
    RoundedQuotientPositive(num, den, prec);
    RoundedQuotientPositive(num', den, prec);
    RoundedQuotientBounds(num, den, m);
    RoundedQuotientBounds(num', den, m');
    assert (m - 1) * den == m * den - den;
    MulCancelLt(m - 1, m', den);
    StripKeepsValue(m, s);
    StripKeepsValue(m', s);
    ValueLeAt(GD(m, s), GD(m', s), s);
    ValueLeTransitive(Strip(m, s), GD(m, s), GD(m', s));
    ValueLeTransitive(Strip(m, s), GD(m', s), Strip(m', s));
  }

  /** Normalization keeps the order of nonnegative values. */
  lemma NormalizeMonotone(x: GD, y: GD)
    requires 0 <= x.coeff && 0 <= y.coeff && ValueLe(x, y)
    ensures ValueLe(Normalize(x), Normalize(y))
  {
    var s := MaxScale(x, y);
    if x.coeff == 0 {
      ZeroIsLeast(Normalize(y));
    } else {
      ProductSign(x.coeff, Pow10(s - x.scale));
      ProductSign(y.coeff, Pow10(s - y.scale));
      NormalizeAtScale(x, s);
      NormalizeAtScale(y, s);
      RoundMonotone(MAX_SIGNIFICANT_DIGITS, AtScale(x, s), AtScale(y, s), 1, s);
    }
  }

  lemma ZeroIsLeast(y: GD)
    requires y.coeff >= 0
    ensures ValueLe(ZERO, y)
  {
    var s := MaxScale(ZERO, y);
    ProductSign(ZERO.coeff, Pow10(s));
    ProductSign(y.coeff, Pow10(s - y.scale));
  }

  lemma NormalizeAtScale(x: GD, s: int)
    requires x.coeff > 0 && s >= x.scale
    ensures AtScale(x, s) > 0 && Normalize(x) == RoundHalfUp(MAX_SIGNIFICANT_DIGITS, AtScale(x, s), 1, s)
  {
    var n := s - x.scale;
    assert AtScale(x, s) == x.coeff * Pow10(n) && s == x.scale + n;
    NormalizeRounds(x);
    RoundShiftNumBy(MAX_SIGNIFICANT_DIGITS, x.coeff, 1, x.scale, n);
  }

  // --- The negative family, on one input --------------------------------------------------------

  /**
   -(9 * 10^46 + 10^12) keeps the 35 digits -(9 * 10^34 + 1), which a second normalization cuts to
   -9 * 10^34. So neither idempotence nor canonicity extends to all negative values; the exact conditions
   are NormalizeIdempotentIff and DecimalNegative.NormalizeIsCanonicalIff.
   */
  lemma NegativeCounterexample()
    ensures var x := GD(-(9 * Pow10(46) + Pow10(12)), 12);
            var y := GD(-(9 * Pow10(34) + 1), 0);
            && SameValue(x, y)
            && Normalize(x) == y && Normalize(y) == GD(-9, -34)
  {
    FirstNormalization();
    SecondNormalization();
    BigPowers();
    AtOwnScale(GD(-(9 * Pow10(46) + Pow10(12)), 12));
  }

  lemma FirstNormalization()
    ensures Normalize(GD(-(9 * Pow10(46) + Pow10(12)), 12)) == GD(-(9 * Pow10(34) + 1), 0)
  {
    var c, q := 9 * Pow10(46) + Pow10(12), 9 * Pow10(34) + 1;
    BigPowers();
    BitsUnique(c, 156);
    DigitCountUnique(Pow2(156), 47);
    DivUnique(c, Pow10(12), q);
    NegativeWithPrec(c, 12, MAX_SIGNIFICANT_DIGITS);
    assert Strip(-q, 0) == GD(-q, 0);
  }

  lemma SecondNormalization()
    ensures Normalize(GD(-(9 * Pow10(34) + 1), 0)) == GD(-9, -34)
  {
    var q := 9 * Pow10(34) + 1;
    BigPowers();
    BitsUnique(q, 117);
    DigitCountUnique(Pow2(117), 36);
    DivUnique(q, Pow10(1), 9 * Pow10(33));
    NegativeWithPrec(q, 0, MAX_SIGNIFICANT_DIGITS);
    StripOfShifted(-9, -34, 33);
  }

  lemma BigPowers()
    ensures Pow10(34) == 10000000000000000000000000000000000 && Pow10(12) == 1000000000000
    ensures Pow10(33) == 1000000000000000000000000000000000 && Pow10(1) == 10
    ensures Pow10(35) == 10 * Pow10(34) && Pow10(36) == 100 * Pow10(34)
    ensures Pow10(46) == Pow10(34) * Pow10(12) && Pow10(47) == 10 * Pow10(46)
    ensures Pow2(116) == 83076749736557242056487941267521536 && Pow2(117) == 2 * Pow2(116)
    ensures Pow2(155) == 549755813888 * Pow2(116) && Pow2(156) == 2 * Pow2(155)
  {
    PowersOfTen();
    PowersOfTwo();
    Pow10Add(34, 12);
    Pow2Add(39, 116);
  }

  lemma PowersOfTen()
    ensures Pow10(12) == 1000000000000 && Pow10(1) == 10
    ensures Pow10(33) == 1000000000000000000000000000000000
  {
    assert Pow10(3) == 1000;
    Pow10Add(3, 3);
    Pow10Add(6, 6);
    Pow10Add(12, 12);
    Pow10Add(24, 6);
    Pow10Add(30, 3);
  }

  lemma PowersOfTwo()
    ensures Pow2(39) == 549755813888 && Pow2(116) == 83076749736557242056487941267521536
  {
    SmallPowersOfTwo();
    Pow2Add(39, 38);
    Pow2Add(77, 39);
  }

  lemma SmallPowersOfTwo()
    ensures Pow2(38) == 274877906944 && Pow2(39) == 549755813888
  {
    assert Pow2(4) == 16;
    Pow2Add(4, 4);
    Pow2Add(8, 8);
    Pow2Add(16, 16);
    Pow2Add(32, 6);
    assert Pow2(39) == 2 * Pow2(38);
  }
}
