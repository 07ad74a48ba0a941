/**
 The decimal type of squids/babydegen/src/decimal.ts: value = coeff * 10^-scale, with digit
 counting, rounding and division done on the unbounded integer coefficient.

 Each loop of the source is a method here, proved against a function. `RoundHalfUp` is an
 independent definition of rounding a positive rational to `prec` significant digits; the modules
 DecimalRounding and DecimalDivision prove that the source computes it.
 */
module Decimal {
  import opened Powers

  const MAX_SIGNIFICANT_DIGITS: nat := 34
  const MAX_DIVISION_PRECISION: nat := 100

  datatype GD = GD(coeff: int, scale: int)

  const ZERO := GD(0, 0)
  const ONE := GD(1, 0)

  function Abs(x: int): (a: nat)
  {
    if x < 0 then -x else x
  }

  /** BigInt division: truncates toward zero. */
  function TruncDiv(a: int, b: int): (q: int)
    requires b > 0
  {
    if a >= 0 then a / b else -((-a) / b)
  }

  /** BigInt remainder: takes the sign of the dividend. */
  function TruncRem(a: int, b: int): (r: int)
    requires b > 0
  {
    if a >= 0 then a % b else -((-a) % b)
  }

  // --- Digit counting --------------------------------------------------------------------------

  /** The greatest e with 10^e <= 2^bits, which the source computes as floor(bits / LOG2_10). */
  function TenExponent(bits: nat): (e: nat)
  {
    DigitCount(Pow2(bits)) - 1
  }

  /** What the source counts: exact for a positive number, the bit-length estimate for a negative. */
  function CountDigits(coeff: int): (d: nat)
  {
    if coeff == 0 then 1
    else if coeff > 0 then DigitCount(coeff)
    else TenExponent(Bits(-coeff))
  }

  lemma EstimateBounds(x: nat)
    requires x > 0
    ensures var e := TenExponent(Bits(x));
            Pow10(e) <= 2 * x && x < Pow10(e + 1)
  {
    BitsBounds(x);
    DigitBounds(Pow2(Bits(x)));
  }

  /** The estimate is the digit count or one less; it is one less exactly from 10^estimate on. */
  lemma EstimateIsCloseToDigitCount(x: nat)
    requires x > 0
    ensures var e, d := TenExponent(Bits(x)), DigitCount(x);
            (e == d || e == d - 1) && (e == d - 1 <==> x >= Pow10(e))
  {
    EstimateBounds(x);
    DigitBounds(x);
    CloseExponents(x, TenExponent(Bits(x)), DigitCount(x));
  }

  lemma CloseExponents(x: nat, e: nat, d: nat)
    requires d >= 1 && Pow10(d - 1) <= x < Pow10(d)
    requires Pow10(e) <= 2 * x && x < Pow10(e + 1)
    ensures (e == d || e == d - 1) && (e == d - 1 <==> x >= Pow10(e))
  {
    Pow10StrictInverse(d - 1, e + 1);
    if e > d {
      Pow10Mono(d + 1, e);
    }
  }

  method CountDecimalDigits(coeff: int) returns (digits: nat)
    ensures digits == CountDigits(coeff)
    ensures coeff > 0 ==> digits >= 1 && Pow10(digits - 1) <= coeff < Pow10(digits)
  {
    if coeff == 0 {
      return 1;
    }
    digits := TenExponent(Bits(Abs(coeff)));
    var num := Pow10(digits);
    if coeff > 0 {
      EstimateIsCloseToDigitCount(coeff);
      DigitBounds(coeff);
    }
    while coeff >= num
      invariant num == Pow10(digits)
      invariant coeff > 0 ==> digits <= DigitCount(coeff)
      invariant coeff < 0 ==> digits == CountDigits(coeff)
      decreases coeff - num
    {
      Pow10StrictInverse(digits, DigitCount(coeff));
      num := num * 10;
      digits := digits + 1;
    }
    if coeff > 0 {
      Pow10StrictInverse(DigitCount(coeff) - 1, digits);
    }
  }

  /** The number without its last n digits. */
  function DropDigits(c: nat, n: nat): (q: nat)
  {
    QuotientIsNatural(c, Pow10(n));
    c / Pow10(n)
  }

  lemma QuotientIsNatural(c: nat, p: nat)
    requires p > 0
    ensures c / p >= 0
  {
    DivBounds(c, p);
    MulCancelLt(0, c / p + 1, p);
  }

  /** 1 when the leading digit is at least 5, else 0. */
  function RoundUpDigit(num: nat): (t: nat)
  {
    if LeadingDigit(num) >= 5 then 1 else 0
  }

  method RoundingTerm(num: nat) returns (term: nat)
    ensures term == RoundUpDigit(num)
  {
    if num == 0 {
      return 0;
    }
    ghost var j := TenExponent(Bits(num));
    var n := Pow10(TenExponent(Bits(num)));
    EstimateBounds(num);
    while true
      invariant n == Pow10(j) && n <= 2 * num
      decreases num + num - n
    {
      if num < n {
        // n / 2 <= num < n: the leading digit is at least 5
        assert j > 0;
        LeadingDigitAtLeast(num, j - 1, 5);
        return 1;
      }
      n := n * 5;
      if num < n {
        // 10^j <= num < 5 * 10^j
        LeadingDigitAtLeast(num, j, 5);
        return 0;
      }
      n := n * 2;
      j := j + 1;
    }
  }

  // --- Rounding and normalization --------------------------------------------------------------

  function WithPrec(x: GD, prec: nat): (r: GD)
  {
    var digits := CountDigits(x.coeff);
    if digits > prec then
      var p := Pow10(digits - prec);
      var q, r := TruncDiv(x.coeff, p), TruncRem(x.coeff, p);
      GD(if p < 10 * r then q + RoundUpDigit(r) else q, x.scale - (digits - prec))
    else
      GD(x.coeff * Pow10(prec - digits), x.scale + (prec - digits))
  }

  /** Strip trailing zeros. */
  function Strip(coeff: int, scale: int): (r: GD)
    requires coeff != 0
    ensures r.coeff != 0 && r.coeff % 10 != 0
    ensures r.coeff > 0 <==> coeff > 0
    ensures Abs(r.coeff) <= Abs(coeff)
    ensures r.scale <= scale && coeff == r.coeff * Pow10(scale - r.scale)
    decreases Abs(coeff)
  {
    if coeff % 10 == 0 then
      var t := Strip(coeff / 10, scale - 1);
      TimesTen(t.coeff, Pow10(scale - 1 - t.scale));
      t
    else GD(coeff, scale)
  }

  lemma QuotientPositive(c: nat, p: nat)
    requires 0 < p <= c
    ensures c / p >= 1
  {
    DivBounds(c, p);
    if c / p <= 0 {
      MulMono(c / p + 1, 1, p);
    }
  }

  lemma ProductSign(a: int, p: nat)
    requires p > 0
    ensures a * p > 0 <==> a > 0
    ensures a * p == 0 <==> a == 0
  {
    if a > 0 {
      MulMono(1, a, p);
    } else if a < 0 {
      MulMono(a, -1, p);
    }
  }

  /** Fewer digits than the estimate are dropped, so a nonzero quotient is left. */
  lemma EnoughDigits(c: nat, n: nat, d: nat)
    requires c > 0 && n < d && (d == DigitCount(c) || d == TenExponent(Bits(c)))
    ensures Pow10(n) <= c
  {
    DigitBounds(c);
    EstimateIsCloseToDigitCount(c);
    Pow10Mono(n, DigitCount(c) - 1);
  }

  lemma StripTen(t: int, s: int)
    requires t != 0
    ensures Strip(10 * t, s) == Strip(t, s - 1)
  {
    assert 10 * t % 10 == 0 && 10 * t / 10 == t;
  }

  lemma WithPrecKeepsSign(x: GD, prec: nat)
    requires x.coeff != 0 && prec >= 1
    ensures WithPrec(x, prec).coeff > 0 <==> x.coeff > 0
    ensures WithPrec(x, prec).coeff != 0
  {
    var digits := CountDigits(x.coeff);
    if digits > prec {
      EnoughDigits(Abs(x.coeff), digits - prec, digits);
      QuotientPositive(Abs(x.coeff), Pow10(digits - prec));
    } else {
      ProductSign(x.coeff, Pow10(prec - digits));
    }
  }

  function Normalize(x: GD): (r: GD)
    ensures r.coeff > 0 <==> x.coeff > 0
    ensures r.coeff == 0 <==> x.coeff == 0
    ensures r.coeff == 0 ==> r == ZERO
    ensures r.coeff != 0 ==> r.coeff % 10 != 0
  {
    if x.coeff == 0 then ZERO
    else
      WithPrecKeepsSign(x, MAX_SIGNIFICANT_DIGITS);
      var t := WithPrec(x, MAX_SIGNIFICANT_DIGITS);
      Strip(t.coeff, t.scale)
  }

  method ComputeWithPrec(x: GD, prec: nat) returns (r: GD)
    ensures r == WithPrec(x, prec)
  {
    var digits := CountDecimalDigits(x.coeff);
    if digits > prec {
      var diff := digits - prec;
      var p := Pow10(diff);
      var q := TruncDiv(x.coeff, p);
      var rem := TruncRem(x.coeff, p);
      if p < 10 * rem {
        var term := RoundingTerm(rem);
        q := q + term;
      }
      return GD(q, x.scale - diff);
    }
    if digits < prec {
      var diff := prec - digits;
      return GD(x.coeff * Pow10(diff), x.scale + diff);
    }
    return x;
  }

  method Normalized(x: GD) returns (r: GD)
    ensures r == Normalize(x)
  {
    if x.coeff == 0 {
      return ZERO;
    }
    WithPrecKeepsSign(x, MAX_SIGNIFICANT_DIGITS);
    var rounded := ComputeWithPrec(x, MAX_SIGNIFICANT_DIGITS);
    var coeff, scale := rounded.coeff, rounded.scale;
    while coeff % 10 == 0
      invariant coeff != 0
      invariant Strip(coeff, scale) == Strip(rounded.coeff, rounded.scale)
      decreases Abs(coeff)
    {
      coeff := coeff / 10;
      scale := scale - 1;
    }
    return GD(coeff, scale);
  }

  // --- Independent definition of rounding -------------------------------------------------------

  /**
   The positive rational (num / den) * 10^-scale rounded half-up to `prec` significant digits, as a
   decimal without trailing zeros: move the point until `prec` digits stand before it, then round.
   */
  function RoundHalfUp(prec: nat, num: nat, den: nat, scale: int): (r: GD)
    requires prec >= 1 && num > 0 && den > 0
    decreases ShiftsLeft(prec, num, den)
  {
    var lo := Pow10(prec - 1) * den;
    PositiveProduct(Pow10(prec - 1), den);
    if num < lo then
      RoundHalfUp(prec, 10 * num, den, scale + 1)
    else if num >= 10 * lo then
      TimesTen(Pow10(prec - 1), den);
      RoundHalfUp(prec, num, 10 * den, scale - 1)
    else
      RoundedQuotientPositive(num, den, prec);
      Strip(RoundedQuotient(num, den), scale)
  }

  function ShiftsLeft(prec: nat, num: nat, den: nat): (m: nat)
    requires prec >= 1
  {
    var lo := Pow10(prec - 1) * den;
    if num < lo then lo - num else if num >= 10 * lo then num - lo else 0
  }

  /** num / den to the nearest integer, halves up. */
  function RoundedQuotient(num: nat, den: nat): (q: nat)
    requires den > 0
  {
    (2 * num + den) / (2 * den)
  }

  lemma PositiveProduct(a: nat, b: nat)
    requires a > 0 && b > 0
    ensures a * b > 0
  {
  }

  lemma NegatedProduct(a: int, b: int)
    ensures (-a) * b == -(a * b)
  {
  }

  lemma RoundedQuotientBounds(num: nat, den: nat, q: int)
    requires den > 0
    ensures q == RoundedQuotient(num, den) <==> 2 * (q * den) - den <= 2 * num < 2 * (q * den) + den
  {
    var r := RoundedQuotient(num, den);
    DivBounds(2 * num + den, 2 * den);
    assert r * (2 * den) == 2 * (r * den);
    assert (r + 1) * (2 * den) == 2 * (r * den) + 2 * den;
    if 2 * (q * den) - den <= 2 * num < 2 * (q * den) + den {
      assert q * (2 * den) == 2 * (q * den);
      assert (q + 1) * (2 * den) == 2 * (q * den) + 2 * den;
      DivUnique(2 * num + den, 2 * den, q);
    }
  }

  lemma RoundedQuotientPositive(num: nat, den: nat, prec: nat)
    requires den > 0 && prec >= 1 && num >= Pow10(prec - 1) * den
    ensures RoundedQuotient(num, den) > 0
  {
    MulMono(1, Pow10(prec - 1), den);
    RoundedQuotientBounds(num, den, RoundedQuotient(num, den));
    MulCancelLt(0, 2 * RoundedQuotient(num, den) + 1, den);
    if RoundedQuotient(num, den) == 0 {
      assert false;
    }
  }
}
