/** Powers of ten and two, and the decimal digits of a natural number. */
module Powers {

  function Pow10(n: nat): (p: nat)
    ensures p >= 1
  {
    if n == 0 then 1 else 10 * Pow10(n - 1)
  }

  function Pow2(n: nat): (p: nat)
    ensures p >= 1
  {
    if n == 0 then 1 else 2 * Pow2(n - 1)
  }

  lemma {:induction false} Pow10Add(a: nat, b: nat)
    ensures Pow10(a + b) == Pow10(a) * Pow10(b)
  {
    if a == 0 {
    } else {
      Pow10Add(a - 1, b);
      assert Pow10(a + b) == 10 * Pow10(a - 1 + b);
      MulAssoc(10, Pow10(a - 1), Pow10(b));
    }
  }

  lemma {:induction false} Pow2Add(a: nat, b: nat)
    ensures Pow2(a + b) == Pow2(a) * Pow2(b)
  {
    if a == 0 {
    } else {
      Pow2Add(a - 1, b);
      assert Pow2(a + b) == 2 * Pow2(a - 1 + b);
      MulAssoc(2, Pow2(a - 1), Pow2(b));
    }
  }

  lemma {:induction false} Pow10Mono(a: nat, b: nat)
    requires a <= b
    ensures Pow10(a) <= Pow10(b)
    ensures a < b ==> 10 * Pow10(a) <= Pow10(b)
    decreases b
  {
    if a < b {
      Pow10Mono(a, b - 1);
    }
  }

  lemma Pow10StrictInverse(a: nat, b: nat)
    requires Pow10(a) < Pow10(b)
    ensures a < b
  {
    if b <= a {
      Pow10Mono(b, a);
    }
  }

  /** Bit length of a natural number: 0 for 0. */
  function Bits(x: nat): (b: nat)
  {
    if x == 0 then 0 else 1 + Bits(x / 2)
  }

  lemma {:induction false} BitsBounds(x: nat)
    requires x > 0
    ensures Bits(x) >= 1
    ensures Pow2(Bits(x) - 1) <= x < Pow2(Bits(x))
  {
    if x == 1 {
      assert Bits(0) == 0;
    } else {
      BitsBounds(x / 2);
    }
  }

  lemma {:induction false} Pow2Mono(a: nat, b: nat)
    requires a <= b
    ensures Pow2(a) <= Pow2(b)
    decreases b
  {
    if a < b {
      Pow2Mono(a, b - 1);
    }
  }

  lemma BitsUnique(x: nat, b: nat)
    requires x > 0 && b >= 1 && Pow2(b - 1) <= x < Pow2(b)
    ensures Bits(x) == b
  {
    BitsBounds(x);
    if Bits(x) < b {
      Pow2Mono(Bits(x), b - 1);
    } else if Bits(x) > b {
      Pow2Mono(b, Bits(x) - 1);
    }
  }

  /** Number of decimal digits; 1 for 0. */
  function DigitCount(x: nat): (d: nat)
    ensures d >= 1
  {
    if x < 10 then 1 else 1 + DigitCount(x / 10)
  }

  /** The most significant decimal digit. */
  function LeadingDigit(x: nat): (d: nat)
  {
    if x < 10 then x else LeadingDigit(x / 10)
  }

  lemma {:induction false} DigitBounds(x: nat)
    requires x > 0
    ensures Pow10(DigitCount(x) - 1) <= x < Pow10(DigitCount(x))
  {
    if x < 10 {
    } else {
      DigitBounds(x / 10);
      assert Pow10(DigitCount(x) - 1) == 10 * Pow10(DigitCount(x / 10) - 1);
    }
  }

  lemma DigitCountUnique(x: nat, d: nat)
    requires d >= 1 && Pow10(d - 1) <= x < Pow10(d)
    ensures DigitCount(x) == d
  {
    DigitBounds(x);
    Pow10StrictInverse(d - 1, DigitCount(x));
    Pow10StrictInverse(DigitCount(x) - 1, d);
  }

  /** The leading digit is the quotient by the largest power of ten not above the number. */
  lemma {:induction false} LeadingDigitQuotient(x: nat)
    requires x > 0
    ensures var p := Pow10(DigitCount(x) - 1);
            LeadingDigit(x) * p <= x < (LeadingDigit(x) + 1) * p
    ensures 1 <= LeadingDigit(x) <= 9
  {
    if x < 10 {
    } else {
      LeadingDigitQuotient(x / 10);
      var p, l := Pow10(DigitCount(x / 10) - 1), LeadingDigit(x);
      assert Pow10(DigitCount(x) - 1) == 10 * p;
      TenfoldBounds(x, l * p, (l + 1) * p);
      TimesTen(l, p);
      TimesTen(l + 1, p);
    }
  }

  lemma TenfoldBounds(x: nat, lo: int, hi: int)
    requires lo <= x / 10 < hi
    ensures 10 * lo <= x < 10 * hi
  {
  }

  lemma TimesTen(a: int, b: int)
    ensures a * (10 * b) == 10 * (a * b)
    ensures (10 * a) * b == 10 * (a * b)
  {
  }

  /** For 10^j <= x < 10^(j+1): leading digit at least k iff x is at least k * 10^j. */
  lemma LeadingDigitAtLeast(x: nat, j: nat, k: nat)
    requires Pow10(j) <= x < Pow10(j + 1)
    ensures LeadingDigit(x) >= k <==> x >= k * Pow10(j)
  {
    DigitCountUnique(x, j + 1);
    LeadingDigitQuotient(x);
    var p, l := Pow10(j), LeadingDigit(x);
    if l >= k {
      MulMono(k, l, p);
    } else {
      MulMono(l + 1, k, p);
    }
  }

  // --- Multiplication facts used by name, so that callers stay linear ---

  lemma MulAssoc(a: int, b: int, c: int)
    ensures (a * b) * c == a * (b * c)
  {
  }

  lemma MulMono(a: int, b: int, c: int)
    requires a <= b && c >= 0
    ensures a * c <= b * c
  {
  }

  lemma MulStrict(a: int, b: int, c: int)
    requires a < b && c > 0
    ensures a * c < b * c
  {
  }

  lemma MulCancelLt(a: int, b: int, c: int)
    requires a * c < b * c && c >= 0
    ensures a < b
  {
    if b <= a {
      MulMono(b, a, c);
    }
  }

  /** Division is characterised by its bounds. */
  lemma DivUnique(a: int, b: int, q: int)
    requires b > 0 && q * b <= a < (q + 1) * b
    ensures a / b == q
  {
    var d := a / b;
    assert d * b <= a < (d + 1) * b;
    MulCancelLt(q, d + 1, b);
    MulCancelLt(d, q + 1, b);
  }

  lemma DivBounds(a: int, b: int)
    requires b > 0
    ensures (a / b) * b <= a < (a / b + 1) * b
    ensures a == (a / b) * b + a % b
  {
  }
}
