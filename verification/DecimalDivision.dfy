/**
 Division is correctly rounded: the 100-digit intermediate quotient never changes the 34-digit
 result, because no midpoint of the coarser rounding can be that close to a quotient of two
 34-digit integers without being equal to it.
 */
module DecimalDivision {
  import opened Powers
  import opened Decimal
  import opened DecimalRounding
  import opened DecimalOrder
  import opened DecimalArithmetic

  /**
   When num and h are multiples of some g > den, num / den and its nearest integer lie on the same
   side of h.
   */
  lemma RoundingKeepsSide(num: nat, den: nat, g: nat, a: nat, k: nat)
    requires den > 0 && g > den && num == a * g
    ensures k * g <= RoundedQuotient(num, den) <==> (k * g) * den <= num
  {
    var h, r := k * g, RoundedQuotient(num, den);
    RoundedQuotientBounds(num, den, r);
    assert (r + 1) * den == r * den + den;
    if h * den <= num {
      if r < h {
        MulMono(r + 1, h, den);
      }
    } else {
      // num < h den, both multiples of g, so num + g <= h den
      MulAssoc(k, g, den);
      MulAssoc(k, den, g);
      assert h * den == (k * den) * g;
      MulCancelLt(a, k * den, g);
      MulMono(a + 1, k * den, g);
      assert (a + 1) * g == num + g;
      if r >= h {
        MulMono(h, r, den);
      }
    }
  }

  /** Two roundings, to an integer and then to a multiple of u, agree with one. */
  lemma RoundTwice(num: nat, den: nat, u: nat, g: nat, a: nat, h: nat)
    requires den > 0 && g > den && num == a * g && u == 2 * (h * g) && h > 0
    ensures u > 0 && u * den > 0
    ensures RoundedQuotient(RoundedQuotient(num, den), u) == RoundedQuotient(num, den * u)
  {
    PositiveProduct(h, g);
    PositiveProduct(u, den);
    var r := RoundedQuotient(num, den);
    var m := RoundedQuotient(r, u);
    RoundedQuotientBounds(r, u, m);
    // (2m - 1)(u / 2) <= r < (2m + 1)(u / 2), and u / 2 is a multiple of g
    var hg := h * g;
    assert m * u == 2 * (m * hg) by { MulAssoc(m, 2, hg); MulAssoc(2, m, hg); }
    assert (2 * m + 1) * hg == 2 * (m * hg) + hg;
    MulAssoc(2 * m + 1, h, g);
    RoundingKeepsSide(num, den, g, a, (2 * m + 1) * h);
    if m > 0 {
      assert (2 * m - 1) * hg == 2 * (m * hg) - hg;
      MulAssoc(2 * m - 1, h, g);
      RoundingKeepsSide(num, den, g, a, (2 * m - 1) * h);
    }
    if m == 0 {
      MulMono(-hg, 0, den);
    }
    LiftBounds(num, den, u, hg, m);
    RoundedQuotientBounds(num, den * u, m);
  }

  lemma LiftBounds(num: nat, den: nat, u: nat, hg: nat, m: nat)
    requires u == 2 * hg
    requires num < (2 * (m * hg) + hg) * den
    requires (2 * (m * hg) - hg) * den <= num
    ensures 2 * (m * (den * u)) - den * u <= 2 * num < 2 * (m * (den * u)) + den * u
  {
    Redistribute(m, hg, den);
    Distribute(m * hg, hg, den);
  }

  lemma Redistribute(m: int, hg: int, den: int)
    ensures m * (den * (2 * hg)) == 2 * ((m * hg) * den)
    ensures den * (2 * hg) == 2 * (hg * den)
  {
  }

  lemma Distribute(a: int, b: int, c: int)
    ensures (2 * a + b) * c == 2 * (a * c) + b * c
    ensures (2 * a - b) * c == 2 * (a * c) - b * c
  {
  }

  // --- The 100-digit quotient ------------------------------------------------------------------

  /** The intermediate precision leaves room for w-digit operands. */
  ghost predicate WideEnough(prec: nat, maxPrec: nat, w: nat)
  {
    prec >= 1 && prec + w + 1 <= maxPrec && 2 * w <= maxPrec
  }

  /**
   A quotient of w-digit integers, extended to `maxPrec` digits, rounds to `prec` digits the same
   from its `maxPrec`-digit rounding as from its exact value.
   */
  lemma ExtendedQuotientRounds(prec: nat, maxPrec: nat, w: nat, a: nat, k: nat, den: nat, s: int)
    requires WideEnough(prec, maxPrec, w) && 0 < a < Pow10(w) && 0 < den < Pow10(w)
    requires Pow10(maxPrec - 1) * den <= a * Pow10(k) < Pow10(maxPrec) * den
    ensures RoundedQuotient(a * Pow10(k), den) > 0
    ensures RoundHalfUp(prec, RoundedQuotient(a * Pow10(k), den), 1, s) == RoundHalfUp(prec, a * Pow10(k), den, s)
  {
    var num, n, g := a * Pow10(k), maxPrec - prec, Pow10(w);
    var r, u := RoundedQuotient(num, den), Pow10(n);
    PositiveProduct(a, Pow10(k));
    ManyShifts(maxPrec, w, a, k, den);
    SplitPower(a, k, w);
    var f := a * Pow10(k - w);
    RoundedHasDigits(maxPrec, w, num, den, f);
    // round both to prec digits at scale s - n
    DigitRange(prec, n, r);
    RoundShiftDenBy(prec, r, 1, s, n);
    RoundShiftDenBy(prec, num, den, s, n);
    assert 1 * u == u;
    HalfUnit(n, w);
    RoundTwice(num, den, u, g, f, 5 * Pow10(n - 1 - w));
    RoundInRange(prec, r, u, s - n);
    LoAtScale(prec, den, n);
    RoundInRange(prec, num, den * u, s - n);
  }

  /** The rounded quotient has as many digits as the exact one. */
  lemma RoundedHasDigits(maxPrec: nat, w: nat, num: nat, den: nat, f: nat)
    requires w < maxPrec && num == f * Pow10(w) && 0 < den < Pow10(w)
    requires Pow10(maxPrec - 1) * den <= num < Pow10(maxPrec) * den
    ensures Pow10(maxPrec - 1) <= RoundedQuotient(num, den) < Pow10(maxPrec)
  {
    Pow10Add(maxPrec - w, w);
    Pow10Add(maxPrec - 1 - w, w);
    RoundingKeepsSide(num, den, Pow10(w), f, Pow10(maxPrec - w));
    RoundingKeepsSide(num, den, Pow10(w), f, Pow10(maxPrec - 1 - w));
  }

  lemma DigitRange(prec: nat, n: nat, r: nat)
    requires prec >= 1 && Pow10(prec + n - 1) <= r < Pow10(prec + n)
    ensures Pow10(prec - 1) * Pow10(n) <= r < 10 * (Pow10(prec - 1) * Pow10(n))
  {
    Pow10Add(prec - 1, n);
  }

  lemma RoundInRange(prec: nat, num: nat, den: nat, s: int)
    requires prec >= 1 && num > 0 && den > 0
    requires Pow10(prec - 1) * den <= num < 10 * (Pow10(prec - 1) * den)
    ensures RoundedQuotient(num, den) > 0
    ensures RoundHalfUp(prec, num, den, s) == Strip(RoundedQuotient(num, den), s)
  {
    RoundedQuotientPositive(num, den, prec);
  }

  lemma LoAtScale(prec: nat, den: nat, n: nat)
    requires prec >= 1
    ensures Pow10(prec - 1) * (den * Pow10(n)) == Pow10(prec - 1 + n) * den
    ensures Pow10(prec + n) == 10 * Pow10(prec - 1 + n)
    ensures Pow10(prec + n) * den == 10 * (Pow10(prec - 1 + n) * den)
  {
    Pow10Add(prec - 1, n);
    assert Pow10(prec - 1) * (den * Pow10(n)) == (Pow10(prec - 1) * Pow10(n)) * den by {
      MulAssoc(Pow10(prec - 1), den, Pow10(n));
      MulAssoc(Pow10(prec - 1), Pow10(n), den);
      assert den * Pow10(n) == Pow10(n) * den;
    }
    TimesTen(Pow10(prec - 1 + n), den);
  }

  lemma HalfUnit(n: nat, w: nat)
    requires n >= w + 1
    ensures Pow10(n) == 2 * ((5 * Pow10(n - 1 - w)) * Pow10(w))
  {
    Pow10Add(n - 1 - w, w);
    MulAssoc(5, Pow10(n - 1 - w), Pow10(w));
  }

  lemma SplitPower(a: nat, k: nat, w: nat)
    requires k >= w
    ensures a * Pow10(k) == (a * Pow10(k - w)) * Pow10(w)
  {
    Pow10Add(k - w, w);
    MulAssoc(a, Pow10(k - w), Pow10(w));
  }

  /** A w-digit numerator reaches maxPrec digits only after at least maxPrec - w shifts. */
  lemma ManyShifts(maxPrec: nat, w: nat, a: nat, k: nat, den: nat)
    requires maxPrec >= 2 * w && maxPrec >= 1 && a < Pow10(w) && den > 0
    requires Pow10(maxPrec - 1) * den <= a * Pow10(k)
    ensures k >= maxPrec - w >= w
  {
    if k + w <= maxPrec - 1 {
      FewShifts(maxPrec - 1, w, a, k, den);
    }
  }

  lemma FewShifts(m: nat, w: nat, a: nat, k: nat, den: nat)
    requires k + w <= m && a < Pow10(w) && den > 0
    ensures a * Pow10(k) < Pow10(m) * den
  {
    MulStrict(a, Pow10(w), Pow10(k));
    Pow10Add(w, k);
    Pow10Mono(w + k, m);
    MulMono(1, den, Pow10(m));
  }

  /** Rounding the long division to prec digits is rounding the exact quotient. */
  lemma {:induction false} LongDivisionRounds(prec: nat, maxPrec: nat, w: nat, a: nat, k: nat, den: nat, s: int)
    requires WideEnough(prec, maxPrec, w) && 0 < a < Pow10(w) && 0 < den < Pow10(w)
    requires a * Pow10(k) > 0 && a * Pow10(k) < Pow10(maxPrec) * den
    ensures var q := LongDivision(a * Pow10(k), den, s, maxPrec);
            q.coeff > 0 && RoundHalfUp(prec, q.coeff, 1, q.scale) == RoundHalfUp(prec, a * Pow10(k), den, s)
    decreases ShiftsLeft(maxPrec, a * Pow10(k), den)
  {
    var num := a * Pow10(k);
    PositiveProduct(Pow10(maxPrec - 1), den);
    if num % den == 0 {
      ExactQuotientRounds(prec, num, den, s);
    } else if num >= Pow10(maxPrec - 1) * den {
      ExtendedQuotientRounds(prec, maxPrec, w, a, k, den, s);
    } else {
      TimesTen(a, Pow10(k));
      TimesTen(Pow10(maxPrec - 1), den);
      RoundShiftNum(prec, num, den, s);
      LongDivisionRounds(prec, maxPrec, w, a, k + 1, den, s + 1);
    }
  }

  lemma ExactQuotientRounds(prec: nat, num: nat, den: nat, s: int)
    requires prec >= 1 && num > 0 && den > 0 && num % den == 0
    ensures num / den > 0
    ensures RoundHalfUp(prec, num / den, 1, s) == RoundHalfUp(prec, num, den, s)
  {
    ExactQuotient(num, den);
    RoundScaled(prec, den, num / den, 1, s);
  }

  /** Normalized integers have at most 35 digits, positive ones at most 34. */
  lemma NormalizedWidth(x: GD)
    ensures Abs(Normalize(x).coeff) < Pow10(MAX_SIGNIFICANT_DIGITS + 1)
  {
    if x.coeff > 0 {
      NormalizedFitsPrecision(x);
      Pow10Mono(MAX_SIGNIFICANT_DIGITS, MAX_SIGNIFICANT_DIGITS + 1);
    } else if x.coeff < 0 {
      WithPrecKeepsSign(x, MAX_SIGNIFICANT_DIGITS);
      NegativeWidth(x, MAX_SIGNIFICANT_DIGITS);
    }
  }

  lemma NegativeWidth(x: GD, prec: nat)
    requires x.coeff < 0 && prec >= 1 && WithPrec(x, prec).coeff != 0
    ensures var t := WithPrec(x, prec);
            Abs(Strip(t.coeff, t.scale).coeff) < Pow10(prec + 1)
  {
    if CountDigits(x.coeff) > prec {
      TruncatedDigits(Abs(x.coeff), prec);
      NegativeWithPrec(Abs(x.coeff), x.scale, prec);
    } else {
      PaddedNegativeWidth(x, prec);
    }
  }

  lemma PaddedNegativeWidth(x: GD, prec: nat)
    requires x.coeff < 0 && CountDigits(x.coeff) <= prec && WithPrec(x, prec).coeff != 0
    ensures var t := WithPrec(x, prec);
            Abs(Strip(t.coeff, t.scale).coeff) < Pow10(prec + 1)
  {
    var n := PaddedWithPrec(prec, x.coeff, x.scale);
    StripOfProduct(x.coeff, x.scale, n);
    EstimatedWidth(Abs(x.coeff), prec);
  }

  lemma EstimatedWidth(c: nat, prec: nat)
    requires c > 0 && TenExponent(Bits(c)) <= prec
    ensures c < Pow10(prec + 1)
  {
    EstimateBounds(c);
    Pow10Mono(TenExponent(Bits(c)) + 1, prec + 1);
  }

  /**
   For every pair of decimals of the same sign, division is the quotient of the normalized operands
   rounded half-up to 34 significant digits.
   */
  lemma DivRounds(a: GD, b: GD)
    requires (a.coeff > 0 && b.coeff > 0) || (a.coeff < 0 && b.coeff < 0)
    ensures var x, y := Normalize(a), Normalize(b);
            Div(a, b) == Ok(RoundHalfUp(MAX_SIGNIFICANT_DIGITS, Abs(x.coeff), Abs(y.coeff), x.scale - y.scale))
  {
    var x, y := Normalize(a), Normalize(b);
    OnlyOneEqualsOne(y);
    if y == ONE {
      NormalizeRounds(x);
    } else if x.coeff == y.coeff {
      EqualCoefficientsRound(Abs(x.coeff), x.scale - y.scale);
    } else {
      DistinctDivide(x, y);
      RoundedOperands(a, b);
    }
  }

  lemma RoundedOperands(a: GD, b: GD)
    requires a.coeff != 0 && b.coeff != 0
    ensures var x, y := Normalize(a), Normalize(b);
            var s := x.scale - y.scale;
            Normalize(LongDivision(Abs(x.coeff), Abs(y.coeff), s, MAX_DIVISION_PRECISION))
            == RoundHalfUp(MAX_SIGNIFICANT_DIGITS, Abs(x.coeff), Abs(y.coeff), s)
  {
    NormalizedWidth(a);
    NormalizedWidth(b);
    NormalizedDivision(Abs(Normalize(a).coeff), Abs(Normalize(b).coeff), Normalize(a).scale - Normalize(b).scale);
  }

  lemma EqualCoefficientsRound(c: nat, s: int)
    requires c > 0
    ensures Normalize(GD(1, s)) == RoundHalfUp(MAX_SIGNIFICANT_DIGITS, c, c, s)
  {
    RoundScaled(MAX_SIGNIFICANT_DIGITS, c, 1, 1, s);
    NormalizeRounds(GD(1, s));
  }

  lemma DistinctDivide(x: GD, y: GD)
    requires (x.coeff > 0 && y.coeff > 0) || (x.coeff < 0 && y.coeff < 0)
    requires x.coeff != y.coeff && !EqValue(y, ONE)
    ensures DivNormalized(x, y)
            == Ok(Normalize(LongDivision(Abs(x.coeff), Abs(y.coeff), x.scale - y.scale, MAX_DIVISION_PRECISION)))
  {
  }

  lemma OnlyOneEqualsOne(y: GD)
    requires y.coeff % 10 != 0
    ensures EqValue(y, ONE) ==> y == ONE
  {
    if y.scale < 0 {
      assert Pow10(-y.scale) == 10 * Pow10(-y.scale - 1);
      TimesTen(y.coeff, Pow10(-y.scale - 1));
    } else if y.scale > 0 {
      assert Pow10(y.scale) == 10 * Pow10(y.scale - 1);
    }
  }

  lemma NormalizedDivision(num: nat, den: nat, s: int)
    requires 0 < num < Pow10(MAX_SIGNIFICANT_DIGITS + 1) && 0 < den < Pow10(MAX_SIGNIFICANT_DIGITS + 1)
    ensures Normalize(LongDivision(num, den, s, MAX_DIVISION_PRECISION))
            == RoundHalfUp(MAX_SIGNIFICANT_DIGITS, num, den, s)
  {
    var w := MAX_SIGNIFICANT_DIGITS + 1;
    assert num * Pow10(0) == num;
    QuotientFits(num, den, w, MAX_DIVISION_PRECISION);
    LongDivisionRounds(MAX_SIGNIFICANT_DIGITS, MAX_DIVISION_PRECISION, w, num, 0, den, s);
    NormalizeRounds(LongDivision(num, den, s, MAX_DIVISION_PRECISION));
  }

  lemma QuotientFits(num: nat, den: nat, w: nat, maxPrec: nat)
    requires num < Pow10(w) && den > 0 && w <= maxPrec
    ensures num < Pow10(maxPrec) * den
  {
    Pow10Mono(w, maxPrec);
    MulMono(1, den, Pow10(maxPrec));
  }

  // --- Operands of opposite signs ---------------------------------------------------------------

  /** Long division stops when it is exact, or at maxPrec digits, rounded. */
  ghost predicate Stopped(num: nat, den: nat, maxPrec: nat, q: nat)
    requires den > 0 && maxPrec >= 1
  {
    num == q * den ||
    (Pow10(maxPrec - 1) * den <= num < Pow10(maxPrec) * den && q == RoundedQuotient(num, den))
  }

  /** q is num / (den * 10^n) without its fraction. */
  ghost predicate IsTruncation(q: int, num: nat, den: nat, n: nat)
  {
    (q * Pow10(n)) * den <= num < ((q + 1) * Pow10(n)) * den
  }

  lemma {:induction false} LongDivisionStops(a: nat, k: nat, den: nat, s: int, maxPrec: nat)
    requires a > 0 && den > 0 && maxPrec >= 1
    requires a * Pow10(k) > 0 && a * Pow10(k) < Pow10(maxPrec) * den
    ensures var q := LongDivision(a * Pow10(k), den, s, maxPrec);
            Stopped(a * Pow10(k + (q.scale - s)), den, maxPrec, q.coeff)
    decreases ShiftsLeft(maxPrec, a * Pow10(k), den)
  {
    var num := a * Pow10(k);
    PositiveProduct(Pow10(maxPrec - 1), den);
    if num % den == 0 {
      ExactQuotient(num, den);
    } else if num < Pow10(maxPrec - 1) * den {
      TimesTen(a, Pow10(k));
      TimesTen(Pow10(maxPrec - 1), den);
      LongDivisionStops(a, k + 1, den, s + 1, maxPrec);
    }
  }

  /** Dropping the digits counted beyond prec from the intermediate quotient is dropping them from the exact quotient. */
  lemma DroppedQuotient(prec: nat, maxPrec: nat, w: nat, num: nat, f: nat, den: nat, q: nat)
    requires WideEnough(prec, maxPrec, w) && 0 < den < Pow10(w)
    requires Stopped(num, den, maxPrec, q) && (Pow10(maxPrec - 1) * den <= num ==> num == f * Pow10(w))
    ensures IsTruncation(DropDigits(q, DigitsBeyond(prec, q)), num, den, DigitsBeyond(prec, q))
  {
    var n := DigitsBeyond(prec, q);
    if num == q * den {
      DroppedExact(num, den, q, n);
    } else {
      RoundedQuotientIsLong(maxPrec, num, den);
      assert n >= w;
      DroppedRounded(num, den, w, f, q, n);
    }
  }

  lemma DroppedExact(num: nat, den: nat, q: nat, n: nat)
    requires den > 0 && num == q * den
    ensures IsTruncation(DropDigits(q, n), num, den, n)
  {
    var m := DropDigits(q, n);
    DivBounds(q, Pow10(n));
    MulMono(m * Pow10(n), q, den);
    MulStrict(q, (m + 1) * Pow10(n), den);
  }

  lemma DroppedRounded(num: nat, den: nat, w: nat, f: nat, q: nat, n: nat)
    requires 0 < den < Pow10(w) && num == f * Pow10(w) && n >= w && q == RoundedQuotient(num, den)
    ensures IsTruncation(DropDigits(q, n), num, den, n)
  {
    DivBounds(q, Pow10(n));
    KeepsSideOfPower(num, den, w, f, DropDigits(q, n), n);
    KeepsSideOfPower(num, den, w, f, DropDigits(q, n) + 1, n);
  }

  lemma KeepsSideOfPower(num: nat, den: nat, w: nat, f: nat, m: nat, n: nat)
    requires 0 < den < Pow10(w) && num == f * Pow10(w) && n >= w
    ensures m * Pow10(n) <= RoundedQuotient(num, den) <==> (m * Pow10(n)) * den <= num
  {
    SplitPower(m, n, w);
    RoundingKeepsSide(num, den, Pow10(w), f, m * Pow10(n - w));
  }

  /** Counted digits of a quotient rounded at maxPrec digits: at least maxPrec - 1. */
  lemma RoundedQuotientIsLong(maxPrec: nat, num: nat, den: nat)
    requires maxPrec >= 1 && den > 0 && Pow10(maxPrec - 1) * den <= num < Pow10(maxPrec) * den
    ensures RoundedQuotient(num, den) > 0
    ensures TenExponent(Bits(RoundedQuotient(num, den))) >= maxPrec - 1
  {
    var q := RoundedQuotient(num, den);
    TimesTen(Pow10(maxPrec - 1), den);
    RoundedQuotientInRange(maxPrec, num, den);
    EstimateBounds(q);
    Pow10StrictInverse(maxPrec - 1, TenExponent(Bits(q)) + 1);
  }

  /** The digits the source counts in the intermediate quotient q beyond prec. */
  function DigitsBeyond(prec: nat, q: nat): (n: nat)
  {
    var digits := TenExponent(Bits(q));
    if digits > prec then digits - prec else 0
  }

  /** r is -num / den * 10^-s truncated toward zero, less the digits counted in its 100-digit rounding beyond 34. */
  ghost predicate IsTruncatedQuotient(r: Quotient, num: nat, den: nat, s: int)
    requires num > 0 && den > 0
  {
    var l := LongDivision(num, den, s, MAX_DIVISION_PRECISION);
    var n := DigitsBeyond(MAX_SIGNIFICANT_DIGITS, l.coeff);
    var q: int := DropDigits(l.coeff, n);
    && q > 0 && r == Ok(Strip(-q, l.scale - n))
    && IsTruncation(q, num * Pow10(l.scale - s), den, n)
  }

  /**
   For operands of opposite signs the quotient of the normalized operands is truncated toward zero;
   by a divisor that normalizes to one, the dividend is normalized a second time instead.
   */
  lemma DivTruncates(a: GD, b: GD)
    requires (a.coeff > 0 && b.coeff < 0) || (a.coeff < 0 && b.coeff > 0)
    ensures var x, y := Normalize(a), Normalize(b);
            if y == ONE then Div(a, b) == Ok(Normalize(x))
            else IsTruncatedQuotient(Div(a, b), Abs(x.coeff), Abs(y.coeff), x.scale - y.scale)
  {
    if Normalize(b) != ONE {
      OnlyOneEqualsOne(Normalize(b));
      OppositeSignDivide(Normalize(a), Normalize(b));
      NegatedOperands(a, b);
    }
  }

  lemma NegatedOperands(a: GD, b: GD)
    requires a.coeff != 0 && b.coeff != 0
    ensures var x, y := Normalize(a), Normalize(b);
            IsTruncatedQuotient(NegatedResult(Abs(x.coeff), Abs(y.coeff), x.scale - y.scale),
                                Abs(x.coeff), Abs(y.coeff), x.scale - y.scale)
  {
    NormalizedWidth(a);
    NormalizedWidth(b);
    NegatedDivision(Abs(Normalize(a).coeff), Abs(Normalize(b).coeff), Normalize(a).scale - Normalize(b).scale);
  }

  lemma OppositeSignDivide(x: GD, y: GD)
    requires (x.coeff > 0 && y.coeff < 0) || (x.coeff < 0 && y.coeff > 0)
    requires !EqValue(y, ONE)
    ensures DivNormalized(x, y) == NegatedResult(Abs(x.coeff), Abs(y.coeff), x.scale - y.scale)
  {
  }

  function NegatedResult(num: nat, den: nat, s: int): (r: Quotient)
    requires num > 0 && den > 0
  {
    var l := LongDivision(num, den, s, MAX_DIVISION_PRECISION);
    Ok(Normalize(GD(-l.coeff, l.scale)))
  }

  lemma NegatedDivision(num: nat, den: nat, s: int)
    requires 0 < num < Pow10(MAX_SIGNIFICANT_DIGITS + 1) && 0 < den < Pow10(MAX_SIGNIFICANT_DIGITS + 1)
    ensures IsTruncatedQuotient(NegatedResult(num, den, s), num, den, s)
  {
    NegatedQuotient(MAX_SIGNIFICANT_DIGITS, MAX_DIVISION_PRECISION, MAX_SIGNIFICANT_DIGITS + 1, num, den, s);
  }

  lemma NegatedQuotient(prec: nat, maxPrec: nat, w: nat, a: nat, den: nat, s: int)
    requires WideEnough(prec, maxPrec, w) && 0 < a < Pow10(w) && 0 < den < Pow10(w)
    ensures var l := LongDivision(a, den, s, maxPrec);
            var n := DigitsBeyond(prec, l.coeff);
            var q: int := DropDigits(l.coeff, n);
            var t := WithPrec(GD(-l.coeff, l.scale), prec);
            && q > 0 && t.coeff != 0 && Strip(t.coeff, t.scale) == Strip(-q, l.scale - n)
            && IsTruncation(q, a * Pow10(l.scale - s), den, n)
  {
    LongDivisionOfOperands(w, a, den, s, maxPrec);
    var l := LongDivision(a, den, s, maxPrec);
    StoppedQuotient(prec, maxPrec, w, a, l.scale - s, a * Pow10(l.scale - s), den, l.coeff);
    NegatedNormal(prec, l);
  }

  lemma LongDivisionOfOperands(w: nat, a: nat, den: nat, s: int, maxPrec: nat)
    requires 1 <= w <= maxPrec && 0 < a < Pow10(w) && den > 0
    ensures var l := LongDivision(a, den, s, maxPrec);
            Stopped(a * Pow10(l.scale - s), den, maxPrec, l.coeff)
  {
    assert a * Pow10(0) == a;
    QuotientFits(a, den, w, maxPrec);
    LongDivisionStops(a, 0, den, s, maxPrec);
  }

  lemma StoppedQuotient(prec: nat, maxPrec: nat, w: nat, a: nat, k: nat, num: nat, den: nat, q: nat)
    requires WideEnough(prec, maxPrec, w) && 0 < a < Pow10(w) && 0 < den < Pow10(w)
    requires num == a * Pow10(k) && Stopped(num, den, maxPrec, q)
    ensures IsTruncation(DropDigits(q, DigitsBeyond(prec, q)), num, den, DigitsBeyond(prec, q))
  {
    var f := OperandFactor(maxPrec, w, a, k, num, den);
    DroppedQuotient(prec, maxPrec, w, num, f, den, q);
  }

  lemma OperandFactor(maxPrec: nat, w: nat, a: nat, k: nat, num: nat, den: nat) returns (f: nat)
    requires maxPrec >= 2 * w && maxPrec >= 1 && a < Pow10(w) && den > 0 && num == a * Pow10(k)
    ensures Pow10(maxPrec - 1) * den <= num ==> num == f * Pow10(w)
  {
    f := 0;
    if Pow10(maxPrec - 1) * den <= num {
      ManyShifts(maxPrec, w, a, k, den);
      SplitPower(a, k, w);
      f := a * Pow10(k - w);
    }
  }

  /** Normalizing a negated quotient drops the counted digits beyond prec and strips. */
  lemma NegatedNormal(prec: nat, l: GD)
    requires prec >= 1 && l.coeff > 0
    ensures var n := DigitsBeyond(prec, l.coeff);
            var q: int := DropDigits(l.coeff, n);
            var t := WithPrec(GD(-l.coeff, l.scale), prec);
            q > 0 && t.coeff != 0 && Strip(t.coeff, t.scale) == Strip(-q, l.scale - n)
  {
    var digits := TenExponent(Bits(l.coeff));
    if digits > prec {
      NegativeWithPrec(l.coeff, l.scale, prec);
      EnoughDigits(l.coeff, digits - prec, digits);
      QuotientPositive(l.coeff, Pow10(digits - prec));
    } else {
      NegatedPadded(prec, l);
    }
  }

  lemma NegatedPadded(prec: nat, l: GD)
    requires l.coeff > 0 && TenExponent(Bits(l.coeff)) <= prec
    ensures DropDigits(l.coeff, 0) == l.coeff
    ensures var t := WithPrec(GD(-l.coeff, l.scale), prec);
            t.coeff != 0 && Strip(t.coeff, t.scale) == Strip(-l.coeff, l.scale)
  {
    var n := PaddedWithPrec(prec, -l.coeff, l.scale);
    StripOfAnyShifted(-l.coeff, l.scale, n);
  }

  lemma PaddedWithPrec(prec: nat, c: int, s: int) returns (n: nat)
    requires c < 0 && CountDigits(c) <= prec
    ensures WithPrec(GD(c, s), prec) == GD(c * Pow10(n), s + n)
  {
    n := prec - CountDigits(c);
  }

  lemma {:induction false} StripOfAnyShifted(c: int, s: int, n: nat)
    requires c != 0
    ensures c * Pow10(n) != 0 && Strip(c * Pow10(n), s + n) == Strip(c, s)
    decreases n
  {
    ProductSign(c, Pow10(n));
    if n > 0 {
      StripOfAnyShifted(c, s, n - 1);
      TimesTen(c, Pow10(n - 1));
      StripTen(c * Pow10(n - 1), s + n);
    } else {
      assert c * Pow10(0) == c;
    }
  }

  // --- Division of any two decimals -------------------------------------------------------------

  /** What division gives, by the signs of its operands. */
  ghost predicate IsDivision(r: Quotient, a: GD, b: GD)
  {
    var x, y := Normalize(a), Normalize(b);
    if b.coeff == 0 then r == DivisionByZero
    else if a.coeff == 0 then r == Ok(ZERO)
    else if a.coeff > 0 <==> b.coeff > 0 then
      r == Ok(RoundHalfUp(MAX_SIGNIFICANT_DIGITS, Abs(x.coeff), Abs(y.coeff), x.scale - y.scale))
    else if y == ONE then r == Ok(Normalize(x))
    else IsTruncatedQuotient(r, Abs(x.coeff), Abs(y.coeff), x.scale - y.scale)
  }

  /** A zero operand decides division. */
  lemma DivOfZero(a: GD, b: GD)
    ensures Div(a, b) == DivisionByZero <==> b.coeff == 0
    ensures a.coeff == 0 && b.coeff != 0 ==> Div(a, b) == Ok(ZERO)
  {
    assert Normalize(ZERO) == ZERO;
  }

  lemma Division(a: GD, b: GD)
    ensures IsDivision(Div(a, b), a, b)
  {
    DivOfZero(a, b);
    if a.coeff != 0 && b.coeff != 0 {
      if a.coeff > 0 <==> b.coeff > 0 {
        DivRounds(a, b);
      } else {
        DivTruncates(a, b);
      }
    }
  }
}
