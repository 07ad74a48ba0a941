/**
 Normalization of positive decimals is correct rounding, and therefore a canonical form: it depends
 only on the value, is idempotent and is monotone.
 */
module DecimalRounding {
  import opened Powers
  import opened Decimal

  // --- RoundHalfUp depends only on the value of (num / den) * 10^-scale -------------------------

  lemma {:induction false} RoundScaled(prec: nat, c: nat, num: nat, den: nat, s: int)
    requires prec >= 1 && c > 0 && num > 0 && den > 0
    ensures c * num > 0 && c * den > 0
    ensures RoundHalfUp(prec, c * num, c * den, s) == RoundHalfUp(prec, num, den, s)
    decreases ShiftsLeft(prec, num, den)
  {
    PositiveProduct(c, num);
    PositiveProduct(c, den);
    var p := Pow10(prec - 1);
    var lo := p * den;
    PositiveProduct(p, den);
    var lo' := p * (c * den);
    assert lo' == c * lo by { MulAssoc(p, c, den); MulAssoc(c, p, den); }
    if num < lo {
      MulStrict(num, lo, c);
      RoundScaled(prec, c, 10 * num, den, s + 1);
      TimesTen(c, num);
    } else if num >= 10 * lo {
      MulMono(10 * lo, num, c);
      TimesTen(c, lo);
      TimesTen(p, den);
      TimesTen(c, den);
      RoundScaled(prec, c, num, 10 * den, s - 1);
    } else {
      MulMono(lo, num, c);
      MulStrict(num, 10 * lo, c);
      TimesTen(c, lo);
      ScaledQuotient(c, num, den);
    }
  }

  lemma ScaledQuotient(c: nat, num: nat, den: nat)
    requires c > 0 && den > 0
    ensures c * den > 0
    ensures RoundedQuotient(c * num, c * den) == RoundedQuotient(num, den)
  {
    PositiveProduct(c, den);
    var q := RoundedQuotient(num, den);
    RoundedQuotientBounds(num, den, q);
    ScaledBounds(c, num, den, q * den);
    assert q * (c * den) == c * (q * den) by { MulAssoc(q, c, den); MulAssoc(c, q, den); }
    RoundedQuotientBounds(c * num, c * den, q);
  }

  lemma ScaledBounds(c: nat, n: int, d: int, t: int)
    requires c > 0 && 2 * t - d <= 2 * n < 2 * t + d
    ensures 2 * (c * t) - c * d <= 2 * (c * n) < 2 * (c * t) + c * d
  {
    MulMono(2 * t - d, 2 * n, c);
    MulStrict(2 * n, 2 * t + d, c);
  }

  lemma RoundShiftNum(prec: nat, num: nat, den: nat, s: int)
    requires prec >= 1 && num > 0 && den > 0
    ensures RoundHalfUp(prec, 10 * num, den, s + 1) == RoundHalfUp(prec, num, den, s)
  {
    var lo := Pow10(prec - 1) * den;
    PositiveProduct(Pow10(prec - 1), den);
    if num >= lo {
      RoundScaled(prec, 10, num, den, s);
    }
  }

  lemma RoundShiftDen(prec: nat, num: nat, den: nat, s: int)
    requires prec >= 1 && num > 0 && den > 0
    ensures RoundHalfUp(prec, num, 10 * den, s - 1) == RoundHalfUp(prec, num, den, s)
  {
    var lo := Pow10(prec - 1) * den;
    PositiveProduct(Pow10(prec - 1), den);
    TimesTen(Pow10(prec - 1), den);
    if num < 10 * lo {
      RoundScaled(prec, 10, num, den, s);
    }
  }

  lemma {:induction false} RoundShiftNumBy(prec: nat, num: nat, den: nat, s: int, n: nat)
    requires prec >= 1 && num > 0 && den > 0
    ensures num * Pow10(n) > 0
    ensures RoundHalfUp(prec, num * Pow10(n), den, s + n) == RoundHalfUp(prec, num, den, s)
    decreases n
  {
    PositiveProduct(num, Pow10(n));
    if n > 0 {
      RoundShiftNumBy(prec, num, den, s, n - 1);
      RoundShiftNum(prec, num * Pow10(n - 1), den, s + n - 1);
      TimesTen(num, Pow10(n - 1));
    }
  }

  lemma {:induction false} RoundShiftDenBy(prec: nat, num: nat, den: nat, s: int, n: nat)
    requires prec >= 1 && num > 0 && den > 0
    ensures den * Pow10(n) > 0
    ensures RoundHalfUp(prec, num, den * Pow10(n), s - n) == RoundHalfUp(prec, num, den, s)
    decreases n
  {
    PositiveProduct(den, Pow10(n));
    if n > 0 {
      RoundShiftDenBy(prec, num, den, s, n - 1);
      RoundShiftDen(prec, num, den * Pow10(n - 1), s - (n - 1));
      TimesTen(den, Pow10(n - 1));
    }
  }

  // --- Normalization is correct rounding --------------------------------------------------------

  /** The source's rounding rule decides exactly whether the dropped part r is at least half of 10^n. */
  lemma RoundingRuleIsHalfUp(r: nat, n: nat)
    requires n >= 1 && r < Pow10(n)
    ensures Pow10(n) < 10 * r && RoundUpDigit(r) == 1 <==> 2 * r >= Pow10(n)
  {
    if 2 * r >= Pow10(n) || Pow10(n) < 10 * r {
      LeadingDigitAtLeast(r, n - 1, 5);
    }
  }

  /** Truncating and applying the rounding rule is division to nearest, halves up. */
  lemma RoundingRuleQuotient(c: nat, n: nat)
    requires n >= 1
    ensures var p := Pow10(n);
            var q, r := c / p, c % p;
            (if p < 10 * r then q + RoundUpDigit(r) else q) == RoundedQuotient(c, p)
  {
    var p := Pow10(n);
    var q, r := c / p, c % p;
    DivBounds(c, p);
    RoundingRuleIsHalfUp(r, n);
    RoundedQuotientBounds(c, p, q);
    RoundedQuotientBounds(c, p, q + 1);
    assert (q + 1) * p == q * p + p;
  }

  lemma NormalizeRounds(x: GD)
    requires x.coeff > 0
    ensures Normalize(x) == RoundHalfUp(MAX_SIGNIFICANT_DIGITS, x.coeff, 1, x.scale)
  {
    WithPrecRounds(x, MAX_SIGNIFICANT_DIGITS);
  }

  lemma WithPrecRounds(x: GD, prec: nat)
    requires x.coeff > 0 && prec >= 1
    ensures WithPrec(x, prec).coeff > 0
    ensures var t := WithPrec(x, prec);
            Strip(t.coeff, t.scale) == RoundHalfUp(prec, x.coeff, 1, x.scale)
  {
    WithPrecKeepsSign(x, prec);
    DigitBounds(x.coeff);
    if DigitCount(x.coeff) > prec {
      CutRounds(x.coeff, x.scale, DigitCount(x.coeff) - prec, prec);
    } else {
      PaddedRounds(x.coeff, x.scale, prec - DigitCount(x.coeff), prec);
    }
  }

  lemma CutRounds(c: nat, s: int, n: nat, prec: nat)
    requires prec >= 1 && n >= 1 && Pow10(prec + n - 1) <= c < Pow10(prec + n)
    ensures var p := Pow10(n);
            var q, r := c / p, c % p;
            var t := if p < 10 * r then q + RoundUpDigit(r) else q;
            t > 0 && Strip(t, s - n) == RoundHalfUp(prec, c, 1, s)
  {
    RoundShiftDenBy(prec, c, 1, s, n);
    assert 1 * Pow10(n) == Pow10(n);
    Pow10Add(prec - 1, n);
    RoundingRuleQuotient(c, n);
    RoundedQuotientPositive(c, Pow10(n), prec);
  }

  lemma PaddedRounds(c: nat, s: int, n: nat, prec: nat)
    requires prec >= n + 1 && Pow10(prec - n - 1) <= c < Pow10(prec - n)
    ensures c * Pow10(n) > 0 && Strip(c * Pow10(n), s + n) == RoundHalfUp(prec, c, 1, s)
  {
    RoundShiftNumBy(prec, c, 1, s, n);
    Pow10Add(prec - n - 1, n);
    Pow10Add(prec - n, n);
    MulMono(Pow10(prec - n - 1), c, Pow10(n));
    MulStrict(c, Pow10(prec - n), Pow10(n));
    var t := c * Pow10(n);
    RoundedQuotientBounds(t, 1, t);
  }
}
