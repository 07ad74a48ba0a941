/**
 Negative decimals are truncated toward zero, at 34 or at 35 significant digits as the bit-length
 estimate has it. This module says what that costs: exactly when equal negative values normalize
 alike, and exactly when comparison reverses their order.
 */
module DecimalNegative {
  import opened Powers
  import opened Decimal
  import opened DecimalRounding
  import opened DecimalOrder
  import opened DecimalArithmetic
  import opened DecimalDivision

  // --- Significant digits -----------------------------------------------------------------------

  /** How many significant digits normalization keeps of a negative decimal. */
  function KeptDigits(x: GD): (k: int)
  {
    MAX_SIGNIFICANT_DIGITS + DigitCount(Abs(x.coeff)) - CountDigits(x.coeff)
  }

  /** The k-th significant digit, 0 behind the last. */
  function SignificantDigit(c: nat, k: nat): (d: nat)
    ensures d <= 9
  {
    if DigitCount(c) < k then 0 else DropDigits(c, DigitCount(c) - k) % 10
  }

  /** The decimal with no more than its first k significant digits. */
  function Leading(x: GD, k: nat): (r: GD)
  {
    var n := DigitCount(Abs(x.coeff)) - k;
    if n > 0 then GD(TruncDiv(x.coeff, Pow10(n)), x.scale - n) else x
  }

  /** The same on integers: the digits behind the k-th are zeros. */
  function Cut(c: nat, k: nat): (t: nat)
  {
    if DigitCount(c) > k then DropDigits(c, DigitCount(c) - k) * Pow10(DigitCount(c) - k) else c
  }

  lemma CutBounds(c: nat, k: nat)
    requires c > 0 && k >= 1
    ensures Cut(c, k) <= c && Pow10(DigitCount(c) - 1) <= Cut(c, k)
    ensures DigitCount(c) > k ==> c < Cut(c, k) + Pow10(DigitCount(c) - k)
  {
    var d := DigitCount(c);
    DigitBounds(c);
    if d > k {
      var p, lead := Pow10(d - k), Pow10(k - 1);
      DivBounds(c, p);
      Pow10Add(k - 1, d - k);
      MulCancelLt(lead, c / p + 1, p);
      MulMono(lead, c / p, p);
      assert (c / p + 1) * p == c / p * p + p;
    }
  }

  lemma MoreDigits(x: nat, y: nat)
    requires 0 < y <= x
    ensures DigitCount(y) <= DigitCount(x)
  {
    DigitBounds(x);
    DigitBounds(y);
    Pow10StrictInverse(DigitCount(y) - 1, DigitCount(x));
  }

  /** With the same number of digits, a multiple of the unit cut at is at most a number if it is at most its cut. */
  lemma CutIsGreatest(x: nat, y: nat, k: nat)
    requires x > 0 && y > 0 && k >= 1 && DigitCount(x) == DigitCount(y) && Cut(x, k) <= y
    ensures Cut(x, k) <= Cut(y, k)
  {
    var n := DigitCount(x) - k;
    if n > 0 {
      MultipleBelow(DropDigits(x, n), y, Pow10(n));
    }
  }

  lemma MultipleBelow(q: nat, y: nat, p: nat)
    requires p > 0 && q * p <= y
    ensures q * p <= y / p * p
  {
    DivBounds(y, p);
    MulCancelLt(q, y / p + 1, p);
    MulMono(q, y / p, p);
  }

  lemma CutMonotone(x: nat, y: nat, k: nat)
    requires 0 < y <= x && k >= 1
    ensures Cut(y, k) <= Cut(x, k)
  {
    MoreDigits(x, y);
    CutBounds(y, k);
    CutBounds(x, k);
    if DigitCount(y) == DigitCount(x) {
      CutIsGreatest(y, x, k);
    } else {
      DigitBounds(y);
      Pow10Mono(DigitCount(y), DigitCount(x) - 1);
    }
  }

  lemma CutDeeper(c: nat, k: nat)
    requires c > 0 && k >= 1
    ensures Cut(c, k) <= Cut(c, k + 1)
    ensures Cut(c, k) == Cut(c, k + 1) <==> SignificantDigit(c, k + 1) == 0
  {
    var n := DigitCount(c) - (k + 1);
    if n >= 0 {
      var p := Pow10(n);
      var q := c / p;
      QuotientIsNatural(c, p);
      assert Pow10(n + 1) == 10 * p;
      DropTenMore(c, p);
      TimesTen(q / 10, p);
      assert q == 10 * (q / 10) + q % 10;
      MulMono(10 * (q / 10), q, p);
      assert q % 10 != 0 ==> 10 * (q / 10) < q;
      if q % 10 != 0 {
        MulStrict(10 * (q / 10), q, p);
      }
      assert n == 0 ==> p == 1 && q == c;
    }
  }

  lemma DropTenMore(c: nat, p: nat)
    requires p > 0
    ensures c / (10 * p) == c / p / 10
  {
    var q := c / p;
    DivBounds(c, p);
    DivBounds(q, 10);
    var t := q / 10;
    MulMono(10 * t, q, p);
    MulMono(q + 1, 10 * (t + 1), p);
    assert t * (10 * p) == (10 * t) * p && (t + 1) * (10 * p) == (10 * (t + 1)) * p;
    DivUnique(c, 10 * p, t);
  }

  /** The one way truncation at k and at k + 1 digits can put numbers out of order. */
  lemma CutReversesIff(x: nat, y: nat, k: nat)
    requires 0 < y <= x && k >= 1
    ensures Cut(x, k) < Cut(y, k + 1) <==> Cut(x, k) == Cut(y, k) && SignificantDigit(y, k + 1) != 0
  {
    CutDeeper(y, k);
    CutMonotone(x, y, k);
    MoreDigits(x, y);
    CutBounds(x, k);
    CutBounds(y, k + 1);
    if DigitCount(x) == DigitCount(y) {
      if Cut(x, k) <= y {
        CutIsGreatest(x, y, k);
      }
    } else {
      DigitBounds(y);
      Pow10Mono(DigitCount(y), DigitCount(x) - 1);
    }
  }

  // --- From coefficients to values --------------------------------------------------------------

  lemma ShiftedDigitCount(c: nat, m: nat)
    requires c > 0
    ensures c * Pow10(m) > 0 && DigitCount(c * Pow10(m)) == DigitCount(c) + m
  {
    var d := DigitCount(c);
    DigitBounds(c);
    Pow10Add(d - 1, m);
    Pow10Add(d, m);
    MulMono(Pow10(d - 1), c, Pow10(m));
    MulStrict(c, Pow10(d), Pow10(m));
    DigitCountUnique(c * Pow10(m), d + m);
  }

  lemma QuotientOfShifted(c: nat, n: nat, m: nat)
    ensures c * Pow10(m) / Pow10(n + m) == c / Pow10(n)
  {
    var p, u := Pow10(n), Pow10(m);
    Pow10Add(n, m);
    var q := c / p;
    DivBounds(c, p);
    MulMono(q * p, c, u);
    MulStrict(c, (q + 1) * p, u);
    MulAssoc(q, p, u);
    MulAssoc(q + 1, p, u);
    DivUnique(c * u, p * u, q);
  }

  lemma QuotientOfMultiple(c: nat, a: nat, b: nat)
    ensures c * Pow10(a + b) / Pow10(b) == c * Pow10(a)
  {
    Pow10Add(a, b);
    MulAssoc(c, Pow10(a), Pow10(b));
    var t := c * Pow10(a);
    assert (t + 1) * Pow10(b) == t * Pow10(b) + Pow10(b);
    DivUnique(c * Pow10(a + b), Pow10(b), t);
  }

  /** Cutting does not depend on trailing zeros. */
  lemma CutShifted(c: nat, m: nat, k: nat)
    requires c > 0 && k >= 1
    ensures Cut(c * Pow10(m), k) == Cut(c, k) * Pow10(m)
  {
    var d := DigitCount(c);
    ShiftedDigitCount(c, m);
    if d > k {
      var n := d - k;
      QuotientOfShifted(c, n, m);
      Pow10Add(n, m);
      MulAssoc(c / Pow10(n), Pow10(n), Pow10(m));
    } else if d + m > k {
      var b := d + m - k;
      QuotientOfMultiple(c, m - b, b);
      Pow10Add(m - b, b);
      MulAssoc(c, Pow10(m - b), Pow10(b));
    }
  }

  lemma EndsInZero(c: nat, n: nat)
    requires n >= 1
    ensures c * Pow10(n) % 10 == 0
  {
    TimesTen(c, Pow10(n - 1));
  }

  lemma DigitShifted(c: nat, m: nat, k: nat)
    requires c > 0 && k >= 1
    ensures SignificantDigit(c * Pow10(m), k) == SignificantDigit(c, k)
  {
    ShiftedDigitCount(c, m);
    if DigitCount(c) >= k {
      QuotientOfShifted(c, DigitCount(c) - k, m);
    } else {
      DigitBehind(c, m, k);
    }
  }

  lemma DigitBehind(c: nat, m: nat, k: nat)
    requires c > 0 && DigitCount(c) < k
    ensures SignificantDigit(c * Pow10(m), k) == 0
  {
    ShiftedDigitCount(c, m);
    if DigitCount(c) + m >= k {
      DropsToShifted(c, k - DigitCount(c), DigitCount(c) + m - k);
    }
  }

  lemma DropsToShifted(c: nat, a: nat, b: nat)
    requires a >= 1
    ensures c * Pow10(a + b) >= 0 && DropDigits(c * Pow10(a + b), b) % 10 == 0
  {
    QuotientOfMultiple(c, a, b);
    EndsInZero(c, a);
  }

  /** The value of a truncated negative decimal at any scale. */
  lemma LeadingAtScale(x: GD, k: nat, s: int)
    requires x.coeff < 0 && k >= 1 && s >= x.scale
    ensures Leading(x, k).scale <= s && Leading(x, k).coeff < 0
    ensures Abs(x.coeff) * Pow10(s - x.scale) > 0
    ensures AtScale(Leading(x, k), s) == -(Cut(Abs(x.coeff) * Pow10(s - x.scale), k) as int)
  {
    var c: nat := Abs(x.coeff);
    var m, n := s - x.scale, DigitCount(c) - k;
    ShiftedDigitCount(c, m);
    CutShifted(c, m, k);
    CutBounds(c, k);
    NegatedProduct(Cut(c, k), Pow10(m));
    if n > 0 {
      var q := DropDigits(c, n);
      CutKeepsDigits(c, k);
      Pow10Add(n, m);
      MulAssoc(q, Pow10(n), Pow10(m));
      NegatedProduct(q, Pow10(n + m));
    }
  }

  lemma CutKeepsDigits(c: nat, k: nat)
    requires c > 0 && k >= 1 && DigitCount(c) > k
    ensures DropDigits(c, DigitCount(c) - k) > 0
  {
    EnoughDigits(c, DigitCount(c) - k, DigitCount(c));
    QuotientPositive(c, Pow10(DigitCount(c) - k));
  }

  // --- Normalization of negative decimals -------------------------------------------------------

  lemma LeadingIs(c: nat, scale: int, k: nat, n: nat)
    requires c > 0 && k >= 1 && n == (if DigitCount(c) > k then DigitCount(c) - k else 0)
    ensures Leading(GD(-(c as int), scale), k) == GD(-(DropDigits(c, n) as int), scale - n)
  {
  }

  lemma TruncatedNormal(x: GD, prec: nat)
    requires x.coeff < 0 && prec >= 1
    ensures var k := prec + DigitCount(Abs(x.coeff)) - CountDigits(x.coeff);
            var t := WithPrec(x, prec);
            && (k == prec || k == prec + 1) && t.coeff != 0 && Leading(x, k).coeff < 0
            && Strip(t.coeff, t.scale) == Strip(Leading(x, k).coeff, Leading(x, k).scale)
  {
    var c: nat := Abs(x.coeff);
    var k := prec + DigitCount(c) - CountDigits(x.coeff);
    EstimateIsCloseToDigitCount(c);
    NegatedNormal(prec, GD(c, x.scale));
    LeadingIs(c, x.scale, k, DigitsBeyond(prec, c));
  }

  /** A negative decimal is truncated toward zero at its kept digits, 34 or 35, and stripped. */
  lemma NormalizeTruncates(x: GD)
    requires x.coeff < 0
    ensures var k := KeptDigits(x);
            && (k == MAX_SIGNIFICANT_DIGITS || k == MAX_SIGNIFICANT_DIGITS + 1) && Leading(x, k).coeff < 0
            && Normalize(x) == Strip(Leading(x, k).coeff, Leading(x, k).scale)
  {
    TruncatedNormal(x, MAX_SIGNIFICANT_DIGITS);
  }

  // --- Order and equality of negative values ----------------------------------------------------

  /** a's k digits and b's k + 1 digits put them out of order though a <= b. */
  predicate ReversedAt(a: GD, b: GD, k: nat)
  {
    SameValue(Leading(a, k), Leading(b, k)) && SignificantDigit(Abs(b.coeff), k + 1) != 0
  }

  /** With a <= b both negative, how their truncations to i and j digits compare. */
  lemma LeadingOrder(a: GD, b: GD, i: nat, j: nat, k: nat)
    requires a.coeff < 0 && b.coeff < 0 && ValueLe(a, b) && k >= 1
    requires (i == k || i == k + 1) && (j == k || j == k + 1)
    ensures ValueLe(Leading(a, i), Leading(b, j)) <==> !(i < j && ReversedAt(a, b, k))
  {
    var s := MaxScale(a, b);
    var x: nat, y: nat := Abs(a.coeff) * Pow10(s - a.scale), Abs(b.coeff) * Pow10(s - b.scale);
    LeadingAtScale(a, i, s);
    LeadingAtScale(b, j, s);
    NegatedProduct(Abs(a.coeff), Pow10(s - a.scale));
    NegatedProduct(Abs(b.coeff), Pow10(s - b.scale));
    assert y <= x;
    ValueLeAt(Leading(a, i), Leading(b, j), s);
    if i < j {
      CutReversesIff(x, y, k);
      ReversedAtScale(a, b, k, s);
    } else {
      CutMonotone(x, y, j);
      CutDeeper(x, k);
    }
  }

  lemma ReversedAtScale(a: GD, b: GD, k: nat, s: int)
    requires a.coeff < 0 && b.coeff < 0 && k >= 1 && s >= a.scale && s >= b.scale
    ensures var x, y := Abs(a.coeff) * Pow10(s - a.scale), Abs(b.coeff) * Pow10(s - b.scale);
            x >= 0 && y >= 0 &&
            (ReversedAt(a, b, k) <==> Cut(x, k) == Cut(y, k) && SignificantDigit(y, k + 1) != 0)
  {
    LeadingAtScale(a, k, s);
    LeadingAtScale(b, k, s);
    ValueLeAt(Leading(a, k), Leading(b, k), s);
    ValueLeAt(Leading(b, k), Leading(a, k), s);
    DigitShifted(Abs(b.coeff), s - b.scale, k + 1);
  }

  /**
   When normalization puts a above b though a <= b: both are negative, b keeps a digit more, they agree
   in the first 34 significant digits, and that digit of b is not 0.
   */
  predicate Reversed(a: GD, b: GD)
  {
    a.coeff < 0 && b.coeff < 0 && KeptDigits(a) < KeptDigits(b) && ReversedAt(a, b, MAX_SIGNIFICANT_DIGITS)
  }

  lemma NegativeCmp(a: GD, b: GD)
    requires a.coeff < 0 && b.coeff < 0 && ValueLe(a, b)
    ensures Cmp(a, b) <= 0 <==> !Reversed(a, b)
  {
    NormalizeTruncates(a);
    NormalizeTruncates(b);
    var x, y := Leading(a, KeptDigits(a)), Leading(b, KeptDigits(b));
    LeadingOrder(a, b, KeptDigits(a), KeptDigits(b), MAX_SIGNIFICANT_DIGITS);
    StrippedOrder(x, y);
    CmpDecidesOrder(a, b);
  }

  lemma StrippedOrder(x: GD, y: GD)
    requires x.coeff != 0 && y.coeff != 0
    ensures ValueLe(Strip(x.coeff, x.scale), Strip(y.coeff, y.scale)) <==> ValueLe(x, y)
  {
    var u, v := Strip(x.coeff, x.scale), Strip(y.coeff, y.scale);
    StripKeepsValue(x.coeff, x.scale);
    StripKeepsValue(y.coeff, y.scale);
    if ValueLe(u, v) {
      ValueLeTransitive(x, u, v);
      ValueLeTransitive(x, v, y);
    }
    if ValueLe(x, y) {
      ValueLeTransitive(u, x, y);
      ValueLeTransitive(u, y, v);
    }
  }

  lemma SignsAreOrdered(a: GD, b: GD)
    ensures ValueLe(a, b) && a.coeff > 0 ==> b.coeff > 0
    ensures ValueLe(a, b) && a.coeff >= 0 ==> b.coeff >= 0
    ensures a.coeff <= 0 <= b.coeff ==> ValueLe(a, b)
  {
    var s := MaxScale(a, b);
    ProductSign(a.coeff, Pow10(s - a.scale));
    ProductSign(b.coeff, Pow10(s - b.scale));
  }

  /** Comparison respects the exact order of any two decimals except exactly when it reverses two negative ones. */
  lemma CmpRespectsValuesIff(a: GD, b: GD)
    requires ValueLe(a, b)
    ensures Cmp(a, b) <= 0 <==> !Reversed(a, b)
  {
    SignsAreOrdered(a, b);
    if a.coeff < 0 && b.coeff < 0 {
      NegativeCmp(a, b);
    } else if a.coeff >= 0 {
      CmpRespectsValues(a, b);
    } else {
      SignsAreOrdered(Normalize(a), Normalize(b));
      CmpDecidesOrder(a, b);
    }
  }

  /**
   Decimals of equal value normalize to one representation exactly when they are not negative, or keep
   the same number of digits, or have a 0 as their 35th significant digit.
   */
  lemma NormalizeIsCanonicalIff(x: GD, y: GD)
    requires SameValue(x, y)
    ensures Normalize(x) == Normalize(y) <==>
              || x.coeff >= 0 || KeptDigits(x) == KeptDigits(y)
              || SignificantDigit(Abs(x.coeff), MAX_SIGNIFICANT_DIGITS + 1) == 0
  {
    SignsAreOrdered(x, y);
    SignsAreOrdered(y, x);
    if x.coeff >= 0 {
      NormalizeIsCanonical(x, y);
    } else {
      NegativeCmp(x, y);
      NegativeCmp(y, x);
      CmpSwaps(x, y);
      CmpZeroIffSameNormalForm(x, y);
      SameDigits(x, y, MAX_SIGNIFICANT_DIGITS);
    }
  }

  lemma CmpSwaps(x: GD, y: GD)
    ensures Cmp(x, y) >= 0 <==> Cmp(y, x) <= 0
  {
    CmpDecidesOrder(x, y);
    CmpDecidesOrder(y, x);
  }

  /** Equal negative values agree in every leading digit. */
  lemma SameDigits(x: GD, y: GD, k: nat)
    requires x.coeff < 0 && y.coeff < 0 && SameValue(x, y) && k >= 1
    ensures SignificantDigit(Abs(x.coeff), k + 1) == SignificantDigit(Abs(y.coeff), k + 1)
    ensures SameValue(Leading(x, k), Leading(y, k))
  {
    var s := MaxScale(x, y);
    var c: nat, d: nat := Abs(x.coeff) * Pow10(s - x.scale), Abs(y.coeff) * Pow10(s - y.scale);
    NegatedProduct(Abs(x.coeff), Pow10(s - x.scale));
    NegatedProduct(Abs(y.coeff), Pow10(s - y.scale));
    ValueLeAt(y, x, s);
    assert c == d;
    DigitShifted(Abs(x.coeff), s - x.scale, k + 1);
    DigitShifted(Abs(y.coeff), s - y.scale, k + 1);
    LeadingAtScale(x, k, s);
    LeadingAtScale(y, k, s);
    ValueLeAt(Leading(x, k), Leading(y, k), s);
    ValueLeAt(Leading(y, k), Leading(x, k), s);
  }

  /** The order is reversed on -(9 * 10^34 + 2) and -(9 * 10^34 + 1), the latter at scale 12. */
  lemma NegativeOrderCounterexample()
    ensures var a, b := GD(-(9 * Pow10(34) + 2), 0), GD(-(9 * Pow10(46) + Pow10(12)), 12);
            ValueLe(a, b) && Cmp(a, b) > 0 && Cmp(b, a) < 0
  {
    var a, b := GD(-(9 * Pow10(34) + 2), 0), GD(-(9 * Pow10(46) + Pow10(12)), 12);
    FirstNormalization();
    OtherNormalization();
    BigPowers();
    AtOwnScale(b);
    var x, y := Normalize(a), Normalize(b);
    AtOwnScale(y);
    CmpDecidesOrder(a, b);
    CmpDecidesOrder(b, a);
  }

  lemma OtherNormalization()
    ensures Normalize(GD(-(9 * Pow10(34) + 2), 0)) == GD(-9, -34)
  {
    var q := 9 * Pow10(34) + 2;
    BigPowers();
    BitsUnique(q, 117);
    DigitCountUnique(Pow2(117), 36);
    DivUnique(q, Pow10(1), 9 * Pow10(33));
    NegativeWithPrec(q, 0, MAX_SIGNIFICANT_DIGITS);
    StripOfShifted(-9, -34, 33);
  }

  // --- Results of any sign ----------------------------------------------------------------------

  /** r is the negative decimal x truncated toward zero at its kept digits. */
  ghost predicate IsTruncated(r: GD, x: GD)
    requires x.coeff < 0
  {
    var k := KeptDigits(x);
    && (k == MAX_SIGNIFICANT_DIGITS || k == MAX_SIGNIFICANT_DIGITS + 1) && Leading(x, k).coeff < 0
    && r == Strip(Leading(x, k).coeff, Leading(x, k).scale)
  }

  /** r is the exact v * 10^-s as the arithmetic returns it: rounded half-up if positive, truncated if negative. */
  ghost predicate IsResult(r: GD, v: int, s: int)
  {
    if v > 0 then r == RoundHalfUp(MAX_SIGNIFICANT_DIGITS, v, 1, s)
    else if v < 0 then IsTruncated(r, GD(v, s))
    else r == ZERO
  }

  lemma NormalizedIsResult(v: int, s: int)
    ensures IsResult(Normalize(GD(v, s)), v, s)
  {
    if v > 0 {
      NormalizeRounds(GD(v, s));
    } else if v < 0 {
      NormalizeTruncates(GD(v, s));
    }
  }

  /** A sum or a difference is the exact one of the normalized operands, rounded or truncated by its sign. */
  lemma SumAndDifference(a: GD, b: GD)
    ensures var x, y := Normalize(a), Normalize(b);
            var s := MaxScale(x, y);
            IsResult(Plus(a, b), AtScale(x, s) + AtScale(y, s), s) && IsResult(Minus(a, b), AtScale(x, s) - AtScale(y, s), s)
  {
    var x, y := Normalize(a), Normalize(b);
    var s := MaxScale(x, y);
    AlignKeepsValues(x, y);
    NormalizedIsResult(AtScale(x, s) + AtScale(y, s), s);
    NormalizedIsResult(AtScale(x, s) - AtScale(y, s), s);
  }

  /** A product is the exact one of the normalized operands, rounded or truncated by its sign. */
  lemma Product(a: GD, b: GD)
    ensures var x, y := Normalize(a), Normalize(b);
            IsResult(Times(a, b), x.coeff * y.coeff, x.scale + y.scale)
  {
    var x, y := Normalize(a), Normalize(b);
    NormalizedIsResult(x.coeff * y.coeff, x.scale + y.scale);
  }

  /** Dividing by one normalizes twice, which changes the value exactly when a digit too many was kept. */
  lemma DivByOneIff(a: GD, b: GD)
    requires Normalize(b) == ONE
    ensures Div(a, b) == Ok(Normalize(Normalize(a)))
    ensures Div(a, b) == Ok(Normalize(a)) <==> !KeepsDigitTooMany(a)
  {
    NormalizeIdempotentIff(a);
  }
}
