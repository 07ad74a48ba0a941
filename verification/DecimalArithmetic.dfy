/** Arithmetic on decimals: every operand and every result is normalized. */
module DecimalArithmetic {
  import opened Powers
  import opened Decimal
  import opened DecimalRounding
  import opened DecimalOrder

  datatype Quotient = Ok(value: GD) | DivisionByZero

  /** Both coefficients at the larger scale. */
  function Align(a: GD, b: GD): (r: (int, int, int))
  {
    if a.scale == b.scale then (a.coeff, b.coeff, a.scale)
    else if a.scale < b.scale then (a.coeff * Pow10(b.scale - a.scale), b.coeff, b.scale)
    else (a.coeff, b.coeff * Pow10(a.scale - b.scale), a.scale)
  }

  function Plus(a: GD, b: GD): (r: GD)
  {
    var (x, y, scale) := Align(Normalize(a), Normalize(b));
    Normalize(GD(x + y, scale))
  }

  function Minus(a: GD, b: GD): (r: GD)
  {
    var (x, y, scale) := Align(Normalize(a), Normalize(b));
    Normalize(GD(x - y, scale))
  }

  function Times(a: GD, b: GD): (r: GD)
  {
    var x, y := Normalize(a), Normalize(b);
    Normalize(GD(x.coeff * y.coeff, x.scale + y.scale))
  }

  function EqValue(a: GD, b: GD): (e: bool)
  {
    var (x, y, _) := Align(a, b);
    x == y
  }

  function Cmp(a: GD, b: GD): (c: int)
  {
    var d := Minus(a, b).coeff;
    if d == 0 then 0 else if d > 0 then 1 else -1
  }

  /**
   Long division of positive integers: digits are appended until the division is exact or the
   quotient has `maxPrecision` digits, and in the latter case the next digit rounds half-up.
   */
  function LongDivision(num: nat, den: nat, scale: int, maxPrecision: nat): (r: GD)
    requires num > 0 && den > 0 && maxPrecision >= 1
    ensures r.coeff > 0 && r.scale >= scale
    decreases ShiftsLeft(maxPrecision, num, den)
  {
    PositiveProduct(Pow10(maxPrecision - 1), den);
    if num % den == 0 then
      ExactQuotient(num, den);
      GD(num / den, scale)
    else if num >= Pow10(maxPrecision - 1) * den then
      RoundedQuotientPositive(num, den, maxPrecision);
      GD(RoundedQuotient(num, den), scale)
    else LongDivision(10 * num, den, scale + 1, maxPrecision)
  }

  lemma ExactQuotient(num: nat, den: nat)
    requires num > 0 && den > 0 && num % den == 0
    ensures num / den > 0 && den * (num / den) == num
  {
    DivBounds(num, den);
    if num / den <= 0 {
      MulMono(num / den, 0, den);
    }
  }

  function Negate(x: GD): (r: GD)
  {
    GD(-x.coeff, x.scale)
  }

  function Divide(num: int, den: int, scale: int, maxPrecision: nat): (r: GD)
    requires den != 0 && maxPrecision >= 1
  {
    if num == 0 then GD(0, 0)
    else
      var q := LongDivision(Abs(num), Abs(den), scale, maxPrecision);
      if (num < 0) == (den < 0) then q else Negate(q)
  }

  function Div(a: GD, b: GD): (r: Quotient)
  {
    DivNormalized(Normalize(a), Normalize(b))
  }

  function DivNormalized(x: GD, y: GD): (r: Quotient)
  {
    if y.coeff == 0 then DivisionByZero
    else if x.coeff == 0 || EqValue(y, ONE) then Ok(Normalize(x))
    else
      var scale := x.scale - y.scale;
      if x.coeff == y.coeff then Ok(Normalize(GD(1, scale)))
      else Ok(Normalize(Divide(x.coeff, y.coeff, scale, MAX_DIVISION_PRECISION)))
  }

  /** The two loops of long division: shift until num >= den, then append quotient digits. */
  method ComputeLongDivision(num0: nat, den: nat, scale0: int, maxPrecision: nat) returns (r: GD)
    requires num0 > 0 && den > 0 && maxPrecision >= 1
    ensures r == LongDivision(num0, den, scale0, maxPrecision)
  {
    var num, scale := num0, scale0;
    while num < den
      invariant num > 0
      invariant LongDivision(num, den, scale, maxPrecision) == LongDivision(num0, den, scale0, maxPrecision)
      decreases den - num
    {
      ShiftStep(num, den, scale, maxPrecision);
      scale := scale + 1;
      num := num * 10;
    }
    var quotient := num / den;
    var remainder := num % den;
    DivBounds(num, den);
    if remainder == 0 {
      return GD(quotient, scale);
    }
    QuotientPositive(num, den);
    var precision := CountDecimalDigits(quotient);
    remainder := remainder * 10;
    // the dividend so far, of which the source keeps only the quotient and ten times the remainder
    ghost var m := num;
    while remainder != 0 && precision < maxPrecision
      invariant m > 0 && quotient == m / den && remainder == 10 * (m % den)
      invariant precision >= 1 && Pow10(precision - 1) <= quotient < Pow10(precision)
      invariant LongDivision(m, den, scale, maxPrecision) == LongDivision(num0, den, scale0, maxPrecision)
      decreases maxPrecision - precision
    {
      TooFewDigits(m, den, precision, maxPrecision);
      AppendDigit(m, den);
      NextDigitRounds(m, den);
      quotient := quotient * 10 + remainder / den;
      remainder := (remainder % den) * 10;
      precision := precision + 1;
      scale := scale + 1;
      m := 10 * m;
    }
    if remainder != 0 {
      EnoughQuotientDigits(m, den, precision, maxPrecision);
      NextDigitRounds(m, den);
      var term := RoundingTerm(remainder / den);
      quotient := quotient + term;
    }
    return GD(quotient, scale);
  }

  lemma ShiftStep(num: nat, den: nat, scale: int, maxPrecision: nat)
    requires 0 < num < den && maxPrecision >= 1
    ensures LongDivision(num, den, scale, maxPrecision) == LongDivision(10 * num, den, scale + 1, maxPrecision)
  {
    MulMono(1, Pow10(maxPrecision - 1), den);
    DivUnique(num, den, 0);
    DivBounds(num, den);
  }

  lemma TooFewDigits(m: nat, den: nat, precision: nat, maxPrecision: nat)
    requires den > 0 && precision < maxPrecision && m / den < Pow10(precision)
    ensures m < Pow10(maxPrecision - 1) * den
  {
    DivBounds(m, den);
    Pow10Mono(precision, maxPrecision - 1);
    MulMono(m / den + 1, Pow10(maxPrecision - 1), den);
  }

  lemma EnoughQuotientDigits(m: nat, den: nat, precision: nat, maxPrecision: nat)
    requires den > 0 && precision >= maxPrecision >= 1 && m / den >= Pow10(precision - 1)
    ensures m >= Pow10(maxPrecision - 1) * den
  {
    DivBounds(m, den);
    Pow10Mono(maxPrecision - 1, precision - 1);
    MulMono(Pow10(maxPrecision - 1), m / den, den);
  }

  lemma AppendDigit(m: nat, den: nat)
    requires den > 0
    ensures 10 * m / den == m / den * 10 + 10 * (m % den) / den
    ensures 10 * m % den == 10 * (m % den) % den
  {
    var q, r := m / den, m % den;
    var d := 10 * r / den;
    DivBounds(m, den);
    DivBounds(10 * r, den);
    DivBounds(10 * m, den);
    var t := q * den;
    assert (10 * q + d) * den == 10 * t + d * den;
    assert (10 * q + d + 1) * den == 10 * t + (d + 1) * den;
    DivUnique(10 * m, den, 10 * q + d);
  }

  /** The digit after the point rounds the quotient half-up. */
  lemma NextDigitRounds(m: nat, den: nat)
    requires den > 0
    ensures RoundedQuotient(m, den) == m / den + RoundUpDigit(10 * (m % den) / den)
    ensures 10 * (m % den) / den < 10
  {
    var q, r := m / den, m % den;
    var d := 10 * r / den;
    DivBounds(m, den);
    DivBounds(10 * r, den);
    MulCancelLt(d, 10, den);
    if d >= 5 {
      MulMono(5, d, den);
    } else {
      MulMono(d + 1, 5, den);
    }
    assert (q + 1) * den == q * den + den;
    RoundedQuotientBounds(m, den, q);
    RoundedQuotientBounds(m, den, q + 1);
  }

  method ComputeDivide(num: int, den: int, scale: int, maxPrecision: nat) returns (r: GD)
    requires den != 0 && maxPrecision >= 1
    ensures r == Divide(num, den, scale, maxPrecision)
  {
    if num == 0 {
      return GD(0, 0);
    }
    r := ComputeLongDivision(Abs(num), Abs(den), scale, maxPrecision);
    if (num < 0) != (den < 0) {
      r := Negate(r);
    }
  }

  /** Division fails on a zero divisor and on no other, and zero divided by anything else is zero. */
  method ComputeDiv(a: GD, b: GD) returns (r: Quotient)
    ensures r == Div(a, b)
    ensures r == DivisionByZero <==> b.coeff == 0
    ensures a.coeff == 0 && b.coeff != 0 ==> r == Ok(ZERO)
  {
    var x := Normalized(a);
    var y := Normalized(b);
    if y.coeff == 0 {
      return DivisionByZero;
    }
    if x.coeff == 0 || EqValue(y, ONE) {
      var n := Normalized(x);
      return Ok(n);
    }
    var scale := x.scale - y.scale;
    if x.coeff == y.coeff {
      var n := Normalized(GD(1, scale));
      return Ok(n);
    }
    var q := ComputeDivide(x.coeff, y.coeff, scale, MAX_DIVISION_PRECISION);
    var n := Normalized(q);
    return Ok(n);
  }

  // --- Comparison -------------------------------------------------------------------------------

  lemma AlignKeepsValues(a: GD, b: GD)
    ensures var s := MaxScale(a, b);
            Align(a, b) == (AtScale(a, s), AtScale(b, s), s)
  {
    AtOwnScale(a);
    AtOwnScale(b);
  }

  /** Comparison decides the order of the normalized values exactly: rounding the difference never changes its sign. */
  lemma CmpDecidesOrder(a: GD, b: GD)
    ensures Cmp(a, b) <= 0 <==> ValueLe(Normalize(a), Normalize(b))
    ensures Cmp(a, b) >= 0 <==> ValueLe(Normalize(b), Normalize(a))
  {
    var x, y := Normalize(a), Normalize(b);
    AlignKeepsValues(x, y);
    assert MaxScale(y, x) == MaxScale(x, y);
  }

  /** Two decimals compare equal exactly when they normalize to one representation, of either sign. */
  lemma CmpZeroIffSameNormalForm(a: GD, b: GD)
    ensures Cmp(a, b) == 0 <==> Normalize(a) == Normalize(b)
  {
    var x, y := Normalize(a), Normalize(b);
    CmpDecidesOrder(a, b);
    if Cmp(a, b) == 0 {
      if x.scale <= y.scale {
        NoTrailingZeroUnique(x, y);
      } else {
        NoTrailingZeroUnique(y, x);
      }
    }
  }

  lemma NoTrailingZeroUnique(x: GD, y: GD)
    requires x.scale <= y.scale && SameValue(x, y)
    requires x == ZERO || x.coeff % 10 != 0
    requires y == ZERO || y.coeff % 10 != 0
    ensures x == y
  {
    var n := y.scale - x.scale;
    AtOwnScale(y);
    ProductSign(x.coeff, Pow10(n));
    assert y.coeff == x.coeff * Pow10(n);
    if n > 0 {
      ShiftedEndsInZero(x.coeff, n);
    }
  }

  lemma ShiftedEndsInZero(c: int, n: nat)
    requires n > 0
    ensures c * Pow10(n) % 10 == 0
  {
    TimesTen(c, Pow10(n - 1));
  }

  /** On nonnegative decimals comparison agrees with the exact values up to rounding: it never reverses them. */
  lemma CmpRespectsValues(a: GD, b: GD)
    requires a.coeff >= 0 && b.coeff >= 0 && ValueLe(a, b)
    ensures Cmp(a, b) <= 0
  {
    NormalizeMonotone(a, b);
    CmpDecidesOrder(a, b);
  }
}
