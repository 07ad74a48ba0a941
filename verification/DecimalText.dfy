/** Decimals as text: `GD.parse` and `GD.toFixed` of squids/babydegen/src/decimal.ts. */
module DecimalText {
  import opened Wrappers
  import opened Powers
  import opened Decimal
  import opened DecimalOrder

  // --- The grammar of decimals ------------------------------------------------------------------

  datatype Sign = NoSign | PlusSign | MinusSign

  datatype Exponent = Exponent(marker: char, sign: Sign, digits: string)

  /** The capture groups of the source's regular expression. */
  datatype Parts = Parts(sign: Sign, whole: string, frac: Option<string>, exp: Option<Exponent>)

  predicate IsDigit(c: char)
  {
    '0' <= c <= '9'
  }

  predicate AllDigits(s: string)
  {
    forall i | 0 <= i < |s| :: IsDigit(s[i])
  }

  predicate WellFormed(p: Parts)
  {
    && AllDigits(p.whole)
    && (p.frac.Some? ==> AllDigits(p.frac.value))
    && (p.whole != "" || (p.frac.Some? && p.frac.value != ""))
    && (p.exp.Some? ==>
          p.exp.value.marker in "eE" && p.exp.value.digits != "" && AllDigits(p.exp.value.digits))
  }

  function RenderSign(s: Sign): (t: string)
  {
    match s case NoSign => "" case PlusSign => "+" case MinusSign => "-"
  }

  function RenderFrac(f: Option<string>): (t: string)
  {
    match f case None => "" case Some(d) => "." + d
  }

  function RenderExp(e: Option<Exponent>): (t: string)
  {
    match e case None => "" case Some(x) => [x.marker] + RenderSign(x.sign) + x.digits
  }

  /** The text a list of capture groups stands for. */
  function Render(p: Parts): (t: string)
  {
    RenderSign(p.sign) + (p.whole + (RenderFrac(p.frac) + RenderExp(p.exp)))
  }

  // --- Scanning ---------------------------------------------------------------------------------

  function DigitValue(c: char): (d: nat)
    requires IsDigit(c)
    ensures d < 10
  {
    c as int - '0' as int
  }

  /** Length of the longest prefix of digits. */
  function DigitPrefix(s: string): (n: nat)
    ensures n <= |s|
  {
    if s == "" || !IsDigit(s[0]) then 0 else 1 + DigitPrefix(s[1..])
  }

  function ScanSign(s: string): (r: (Sign, string))
    ensures |r.1| <= |s|
  {
    if s != "" && s[0] == '+' then (PlusSign, s[1..])
    else if s != "" && s[0] == '-' then (MinusSign, s[1..])
    else (NoSign, s)
  }

  function ScanFrac(s: string): (r: (Option<string>, string))
  {
    if s != "" && s[0] == '.' then
      var n := DigitPrefix(s[1..]);
      (Some(s[1..][..n]), s[1..][n..])
    else (None, s)
  }

  /** None when the text is not an exponent up to its end. */
  function ScanExp(s: string): (r: Option<Option<Exponent>>)
  {
    if s == "" then Some(None)
    else if s[0] in "eE" then
      var (sign, digits) := ScanSign(s[1..]);
      if digits != "" && DigitPrefix(digits) == |digits| then Some(Some(Exponent(s[0], sign, digits))) else None
    else None
  }

  function Scan(s: string): (r: Option<Parts>)
  {
    var (sign, u) := ScanSign(s);
    var n := DigitPrefix(u);
    var (frac, v) := ScanFrac(u[n..]);
    match ScanExp(v)
    case None => None
    case Some(exp) =>
      if u[..n] == "" && (frac.None? || frac.value == "") then None
      else Some(Parts(sign, u[..n], frac, exp))
  }

  /** White space and line terminators, as String.prototype.trim removes them. */
  predicate IsSpace(c: char)
  {
    c in "\t\n\r " || c == '\U{000B}' || c == '\U{000C}' || c == '\U{00A0}' || c == '\U{1680}' ||
    '\U{2000}' <= c <= '\U{200A}' || c == '\U{2028}' || c == '\U{2029}' || c == '\U{202F}' ||
    c == '\U{205F}' || c == '\U{3000}' || c == '\U{FEFF}'
  }

  function Trim(s: string): (t: string)
    ensures |t| <= |s|
    ensures t != "" ==> !IsSpace(t[0]) && !IsSpace(t[|t| - 1])
  {
    if s == "" then ""
    else if IsSpace(s[0]) then Trim(s[1..])
    else if IsSpace(s[|s| - 1]) then Trim(s[..|s| - 1])
    else s
  }

  /** BigInt of a string of decimal digits. */
  function DigitsValue(s: string): (v: nat)
    requires AllDigits(s)
  {
    if s == "" then 0 else 10 * DigitsValue(s[..|s| - 1]) + DigitValue(s[|s| - 1])
  }

  function Signed(s: Sign, v: int): (x: int)
  {
    if s == MinusSign then -v else v
  }

  function PartsValue(p: Parts): (x: GD)
    requires WellFormed(p)
  {
    var frac := if p.frac.Some? then p.frac.value else "";
    var digits := DigitsValue((if p.whole == "" then "0" else p.whole) + frac);
    var exp := if p.exp.Some? then Signed(p.exp.value.sign, DigitsValue(p.exp.value.digits)) else 0;
    GD(Signed(p.sign, digits), |frac| - exp)
  }

  /** None where the source throws. */
  function Parse(s: string): (r: Option<GD>)
  {
    ScanSound(Trim(s));
    match Scan(Trim(s))
    case None => None
    case Some(p) => Some(PartsValue(p))
  }

  // --- Printing ---------------------------------------------------------------------------------

  function DigitChar(d: nat): (c: char)
    requires d < 10
    ensures IsDigit(c) && DigitValue(c) == d
  {
    (d + '0' as int) as char
  }

  function NatToString(n: nat): (s: string)
    ensures s != "" && AllDigits(s)
  {
    if n < 10 then [DigitChar(n)] else NatToString(n / 10) + [DigitChar(n % 10)]
  }

  function Zeros(n: nat): (s: string)
    ensures |s| == n && AllDigits(s)
  {
    if n == 0 then "" else Zeros(n - 1) + "0"
  }

  function ToFixed(x: GD): (s: string)
  {
    var sign := if x.coeff < 0 then "-" else "";
    var digits := NatToString(Abs(x.coeff));
    if x.scale <= 0 then sign + (if x.coeff == 0 then "0" else digits + Zeros(-x.scale))
    else
      var padded := Padded(digits, x.scale);
      var point := |padded| - x.scale;
      sign + (padded[..point] + "." + padded[point..])
  }

  /** Leading zeros, so that a digit stands before the point. */
  function Padded(digits: string, scale: int): (p: string)
    requires AllDigits(digits) && scale > 0
    ensures |p| > scale && AllDigits(p)
  {
    if |digits| <= scale then Zeros(scale - |digits| + 1) + digits else digits
  }

  // --- Scanning inverts rendering ---------------------------------------------------------------

  lemma {:induction false} DigitPrefixOfDigits(d: string, rest: string)
    requires AllDigits(d) && (rest == "" || !IsDigit(rest[0]))
    ensures DigitPrefix(d + rest) == |d|
  {
    if d == "" {
      assert d + rest == rest;
    } else {
      DigitPrefixOfDigits(d[1..], rest);
      assert (d + rest)[1..] == d[1..] + rest;
    }
  }

  lemma {:induction false} DigitPrefixSound(s: string)
    ensures AllDigits(s[..DigitPrefix(s)])
    ensures DigitPrefix(s) < |s| ==> !IsDigit(s[DigitPrefix(s)])
  {
    if s == "" || !IsDigit(s[0]) {
    } else {
      DigitPrefixSound(s[1..]);
      var n := DigitPrefix(s);
      assert s[..n] == [s[0]] + s[1..][..n - 1];
    }
  }

  lemma ScanSignOfRender(sign: Sign, rest: string)
    requires sign != NoSign || rest == "" || rest[0] !in "+-"
    ensures ScanSign(RenderSign(sign) + rest) == (sign, rest)
  {
    if sign == NoSign {
      assert "" + rest == rest;
    }
  }

  lemma ScanExpOfRender(e: Option<Exponent>)
    requires e.Some? ==> e.value.marker in "eE" && e.value.digits != "" && AllDigits(e.value.digits)
    ensures ScanExp(RenderExp(e)) == Some(e)
    ensures RenderExp(e) == "" || RenderExp(e)[0] in "eE"
  {
    if e.Some? {
      var x := e.value;
      var t := RenderExp(e);
      assert t[1..] == RenderSign(x.sign) + x.digits;
      ScanSignOfRender(x.sign, x.digits);
      DigitPrefixOfDigits(x.digits, "");
      assert x.digits + "" == x.digits;
    }
  }

  lemma ScanFracOfRender(f: Option<string>, rest: string)
    requires f.Some? ==> AllDigits(f.value)
    requires rest == "" || rest[0] in "eE"
    ensures ScanFrac(RenderFrac(f) + rest) == (f, rest)
    ensures RenderFrac(f) + rest == "" || !IsDigit((RenderFrac(f) + rest)[0])
  {
    match f
    case None =>
      assert "" + rest == rest;
    case Some(d) =>
      var t := RenderFrac(f) + rest;
      assert t[1..] == d + rest;
      DigitPrefixOfDigits(d, rest);
      assert (d + rest)[..|d|] == d && (d + rest)[|d|..] == rest;
  }

  /** Every well-formed list of capture groups is read back from its text. */
  lemma ScanRender(p: Parts)
    requires WellFormed(p)
    ensures Scan(Render(p)) == Some(p)
    ensures Trim(Render(p)) == Render(p)
  {
    var e := RenderExp(p.exp);
    var f := RenderFrac(p.frac) + e;
    var u := p.whole + f;
    ScanExpOfRender(p.exp);
    ScanFracOfRender(p.frac, e);
    DigitPrefixOfDigits(p.whole, f);
    assert u[..|p.whole|] == p.whole && u[|p.whole|..] == f;
    ScanSignOfRender(p.sign, u);
    NoOuterSpace(p);
  }

  lemma NoOuterSpace(p: Parts)
    requires WellFormed(p)
    ensures Trim(Render(p)) == Render(p)
  {
    var t := Render(p);
    assert !IsSpace(t[0]) by {
      if p.sign == NoSign && p.whole == "" {
        assert t == RenderFrac(p.frac) + RenderExp(p.exp);
      } else if p.sign == NoSign {
        assert t[0] == p.whole[0];
      }
    }
    assert t[|t| - 1] == LastChar(p);
  }

  function LastChar(p: Parts): (c: char)
    requires WellFormed(p)
    ensures !IsSpace(c)
  {
    if p.exp.Some? then p.exp.value.digits[|p.exp.value.digits| - 1]
    else if p.frac.Some? && p.frac.value != "" then p.frac.value[|p.frac.value| - 1]
    else if p.frac.Some? then '.'
    else p.whole[|p.whole| - 1]
  }

  lemma ScanSignSound(s: string)
    ensures RenderSign(ScanSign(s).0) + ScanSign(s).1 == s
  {
  }

  lemma ScanFracSound(s: string)
    ensures var (frac, v) := ScanFrac(s);
            RenderFrac(frac) + v == s && (frac.Some? ==> AllDigits(frac.value))
  {
    if s != "" && s[0] == '.' {
      DigitPrefixSound(s[1..]);
      SplitAt(s[1..], DigitPrefix(s[1..]));
      var n := DigitPrefix(s[1..]);
      assert "." + s[1..][..n] + s[1..][n..] == "." + (s[1..][..n] + s[1..][n..]);
    }
  }

  lemma ScanExpSound(s: string)
    requires ScanExp(s).Some?
    ensures var e := ScanExp(s).value;
            && RenderExp(e) == s
            && (e.Some? ==> e.value.marker in "eE" && e.value.digits != "" && AllDigits(e.value.digits))
  {
    if s != "" {
      var (sign, digits) := ScanSign(s[1..]);
      ScanSignSound(s[1..]);
      AllPrefix(digits);
      assert [s[0]] + RenderSign(sign) + digits == [s[0]] + (RenderSign(sign) + digits);
    }
  }

  lemma AllPrefix(digits: string)
    requires DigitPrefix(digits) == |digits|
    ensures AllDigits(digits)
  {
    DigitPrefixSound(digits);
    assert digits[..|digits|] == digits;
  }

  /** Whatever is scanned is well formed and is the whole text. */
  lemma ScanSound(s: string)
    ensures Scan(s).Some? ==> WellFormed(Scan(s).value) && Render(Scan(s).value) == s
  {
    var (sign, u) := ScanSign(s);
    var n := DigitPrefix(u);
    var (frac, v) := ScanFrac(u[n..]);
    ScanSignSound(s);
    DigitPrefixSound(u);
    ScanFracSound(u[n..]);
    SplitAt(u, n);
    if Scan(s).Some? {
      ScanExpSound(v);
    }
  }

  lemma SplitAt(s: string, n: nat)
    requires n <= |s|
    ensures s == s[..n] + s[n..]
  {
  }

  /** Parsing succeeds exactly on the texts of the grammar, up to surrounding white space, and gives their value. */
  lemma ParseIsTheGrammar(s: string)
    ensures Parse(s).Some? <==> exists p :: WellFormed(p) && Render(p) == Trim(s)
    ensures forall p | WellFormed(p) && Render(p) == Trim(s) :: Parse(s) == Some(PartsValue(p))
  {
    ScanSound(Trim(s));
    forall p | WellFormed(p) && Render(p) == Trim(s)
      ensures Parse(s) == Some(PartsValue(p))
    {
      ScanRender(p);
    }
  }

  // --- Parsing inverts printing -----------------------------------------------------------------

  lemma {:induction false} ValueOfNat(n: nat)
    ensures DigitsValue(NatToString(n)) == n
  {
    var s := NatToString(n);
    if n < 10 {
      assert s[..|s| - 1] == "";
    } else {
      ValueOfNat(n / 10);
      assert s[..|s| - 1] == NatToString(n / 10);
    }
  }

  lemma {:induction false} ValueOfTrailingZeros(s: string, n: nat)
    requires AllDigits(s)
    ensures DigitsValue(s + Zeros(n)) == DigitsValue(s) * Pow10(n)
  {
    if n == 0 {
      assert s + Zeros(0) == s;
    } else {
      ValueOfTrailingZeros(s, n - 1);
      var t := s + Zeros(n);
      assert t[..|t| - 1] == s + Zeros(n - 1);
      TimesTen(DigitsValue(s), Pow10(n - 1));
    }
  }

  lemma {:induction false} ValueOfLeadingZeros(n: nat, s: string)
    requires AllDigits(s)
    ensures DigitsValue(Zeros(n) + s) == DigitsValue(s)
    decreases n + |s|
  {
    var t := Zeros(n) + s;
    if s != "" {
      ValueOfLeadingZeros(n, s[..|s| - 1]);
      assert t[..|t| - 1] == Zeros(n) + s[..|s| - 1];
    } else if n > 0 {
      ValueOfLeadingZeros(n - 1, "");
      assert t == Zeros(n - 1) + "0" && Zeros(n - 1) + "" == Zeros(n - 1);
      assert t[..|t| - 1] == Zeros(n - 1);
    }
  }

  /** What printing and parsing give back: the decimal itself, or its integer value when the scale is negative. */
  function Reread(x: GD): (r: GD)
  {
    if x.scale >= 0 then x else GD(x.coeff * Pow10(-x.scale), 0)
  }

  /** The capture groups of a printed decimal. */
  function FixedParts(x: GD): (p: Parts)
    ensures WellFormed(p)
  {
    var digits := NatToString(Abs(x.coeff));
    var sign := if x.coeff < 0 then MinusSign else NoSign;
    if x.scale <= 0 then
      Parts(sign, if x.coeff == 0 then "0" else digits + Zeros(-x.scale), None, None)
    else
      var padded := Padded(digits, x.scale);
      var point := |padded| - x.scale;
      Parts(sign, padded[..point], Some(padded[point..]), None)
  }

  lemma ToFixedRenders(x: GD)
    ensures Render(FixedParts(x)) == ToFixed(x)
  {
    var p := FixedParts(x);
    if x.scale <= 0 {
      assert p.whole + ("" + "") == p.whole;
    } else {
      assert p.whole + (("." + p.frac.value) + "") == p.whole + "." + p.frac.value;
    }
  }

  lemma ParseRender(p: Parts)
    requires WellFormed(p)
    ensures Parse(Render(p)) == Some(PartsValue(p))
  {
    ScanRender(p);
  }

  lemma FixedPartsValue(x: GD)
    ensures PartsValue(FixedParts(x)) == Reread(x)
  {
    if x.scale <= 0 {
      IntegerValue(x);
    } else {
      var digits := NatToString(Abs(x.coeff));
      ValueOfNat(Abs(x.coeff));
      PaddedValue(digits, x.scale);
      SplitAt(Padded(digits, x.scale), |Padded(digits, x.scale)| - x.scale);
    }
  }

  lemma IntegerValue(x: GD)
    requires x.scale <= 0
    ensures PartsValue(FixedParts(x)) == Reread(x)
  {
    ValueOfNat(Abs(x.coeff));
    ValueOfTrailingZeros(NatToString(Abs(x.coeff)), -x.scale);
    NegatedProduct(Abs(x.coeff), Pow10(-x.scale));
    IntegerPartsValue(FixedParts(x));
    ZeroValue();
  }

  lemma ZeroValue()
    ensures DigitsValue("0") == 0
  {
    var s := "0";
    assert s[..|s| - 1] == "" && DigitValue(s[0]) == 0;
  }

  lemma IntegerPartsValue(p: Parts)
    requires WellFormed(p) && p.frac.None? && p.exp.None?
    ensures PartsValue(p) == GD(Signed(p.sign, DigitsValue(p.whole)), 0)
  {
    assert p.whole + "" == p.whole;
  }

  lemma PaddedValue(digits: string, scale: int)
    requires AllDigits(digits) && scale > 0
    ensures DigitsValue(Padded(digits, scale)) == DigitsValue(digits)
  {
    if |digits| <= scale {
      ValueOfLeadingZeros(scale - |digits| + 1, digits);
    }
  }

  /** Every decimal is read back from its print: identically when its scale is not negative, else with the same value. */
  lemma ParseToFixed(x: GD)
    ensures Parse(ToFixed(x)) == Some(Reread(x))
    ensures SameValue(Reread(x), x)
    ensures x.scale >= 0 ==> Reread(x) == x
  {
    ToFixedRenders(x);
    ParseRender(FixedParts(x));
    FixedPartsValue(x);
    RereadKeepsValue(x);
  }

  lemma RereadKeepsValue(x: GD)
    ensures SameValue(Reread(x), x)
  {
    AtOwnScale(Reread(x));
  }

  /** Trimming takes white space off the two ends, all of it and nothing else. */
  lemma {:induction false} TrimTakesSpaces(s: string) returns (left: string, right: string)
    ensures s == left + Trim(s) + right && (forall c | c in left || c in right :: IsSpace(c))
    ensures Trim(s) != "" ==> !IsSpace(Trim(s)[0]) && !IsSpace(Trim(s)[|Trim(s)| - 1])
  {
    if s == "" {
      left, right := "", "";
    } else if IsSpace(s[0]) {
      left, right := TrimTakesSpaces(s[1..]);
      left := [s[0]] + left;
    } else if IsSpace(s[|s| - 1]) {
      left, right := TrimTakesSpaces(s[..|s| - 1]);
      assert s == s[..|s| - 1] + [s[|s| - 1]];
      right := right + [s[|s| - 1]];
    } else {
      left, right := "", "";
      assert "" + s + "" == s;
    }
  }

  // --- What a text means ------------------------------------------------------------------------

  /** The number a string of digits writes, place by place. */
  function Number(s: string): (n: nat)
    requires AllDigits(s)
  {
    if s == "" then 0 else (s[0] as int - 48) * Pow10(|s| - 1) + Number(s[1..])
  }

  lemma {:induction false} NumberAppend(s: string, t: string)
    requires AllDigits(s) && |t| == 1 && IsDigit(t[0])
    ensures AllDigits(s + t) && Number(s + t) == 10 * Number(s) + (t[0] as int - 48)
  {
    if s == "" {
      assert s + t == t && t[1..] == "";
    } else {
      NumberAppend(s[1..], t);
      assert (s + t)[1..] == s[1..] + t;
      TimesTen(s[0] as int - 48, Pow10(|s| - 1));
    }
  }

  lemma {:induction false} DigitsValueIsNumber(s: string)
    requires AllDigits(s)
    ensures DigitsValue(s) == Number(s)
  {
    if s != "" {
      var init, last := s[..|s| - 1], [s[|s| - 1]];
      DigitsValueIsNumber(init);
      NumberAppend(init, last);
      assert init + last == s;
    }
  }

  lemma ZeroBefore(zero: string, s: string)
    requires AllDigits(s) && zero == Zeros(1)
    ensures DigitsValue(zero + s) == DigitsValue(s)
  {
    ValueOfLeadingZeros(1, s);
  }

  lemma DigitsNumber(whole: string, frac: string)
    requires AllDigits(whole) && AllDigits(frac)
    ensures DigitsValue((if whole == "" then "0" else whole) + frac) == Number(whole + frac)
  {
    DigitsValueIsNumber(whole + frac);
    if whole == "" {
      assert whole + frac == frac && Zeros(0) + "0" == "0";
      ZeroBefore("0", frac);
    }
  }

  function FracOf(p: Parts): (f: string)
  {
    if p.frac.Some? then p.frac.value else ""
  }

  /** The power of ten a text is written with. */
  function PowerOf(p: Parts): (e: int)
    requires WellFormed(p)
  {
    if p.exp.None? then 0
    else if p.exp.value.sign == MinusSign then -(Number(p.exp.value.digits) as int)
    else Number(p.exp.value.digits)
  }

  function Meaning(p: Parts): (x: GD)
    requires WellFormed(p)
  {
    var n := Number(p.whole + FracOf(p));
    GD(if p.sign == MinusSign then -(n as int) else n, |FracOf(p)| - PowerOf(p))
  }

  lemma ExponentIsPower(p: Parts)
    requires WellFormed(p)
    ensures PowerOf(p) == if p.exp.Some? then Signed(p.exp.value.sign, DigitsValue(p.exp.value.digits)) else 0
  {
    if p.exp.Some? {
      DigitsValueIsNumber(p.exp.value.digits);
    }
  }

  lemma ValueIsMeaning(p: Parts)
    requires WellFormed(p)
    ensures PartsValue(p) == Meaning(p)
  {
    DigitsNumber(p.whole, FracOf(p));
    ExponentIsPower(p);
  }

  /**
   What any text of the grammar is read as: the number its digits write on both sides of the point, negative
   after a minus, at a scale of the digits behind the point less the exponent.
   */
  lemma ParseGives(p: Parts)
    requires WellFormed(p)
    ensures Parse(Render(p)) == Some(Meaning(p))
  {
    ParseRender(p);
    ValueIsMeaning(p);
  }

  lemma {:induction false} NoLeadingZero(n: nat)
    ensures |NatToString(n)| > 1 ==> NatToString(n)[0] != '0'
    ensures n > 0 ==> NatToString(n)[0] != '0'
  {
    if n >= 10 {
      NoLeadingZero(n / 10);
    }
  }

  /**
   A decimal is printed in plain notation: a minus if it is negative, no exponent, as many digits behind the
   point as its scale, no point when there are none, and no zero before other digits of the whole part.
   */
  lemma ToFixedIsPlain(x: GD) returns (p: Parts)
    ensures WellFormed(p) && Render(p) == ToFixed(x) && p.exp.None?
    ensures p.sign == if x.coeff < 0 then MinusSign else NoSign
    ensures if x.scale > 0 then p.frac.Some? && |p.frac.value| == x.scale else p.frac.None?
    ensures p.whole != "" && (|p.whole| > 1 ==> p.whole[0] != '0')
  {
    p := FixedParts(x);
    ToFixedRenders(x);
    NoLeadingZero(Abs(x.coeff));
  }
}
