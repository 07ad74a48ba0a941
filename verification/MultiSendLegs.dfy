/** What the legs of a MultiSend call mean, field by field, and which of them are listed. */
module MultiSendLegs {
  import opened MultiSend

  function Pow16(n: nat): (p: nat)
  {
    if n == 0 then 1 else 16 * Pow16(n - 1)
  }

  /** The number a string of hex digits writes, place by place. */
  function HexNumber(s: string): (n: nat)
    requires IsHex(s)
  {
    if s == [] then 0 else Digit(s[0]) * Pow16(|s| - 1) + HexNumber(s[1..])
  }

  lemma TimesSixteen(a: nat, b: nat)
    ensures a * (16 * b) == 16 * (a * b)
  {
  }

  lemma AppendIsHex(s: string, c: char)
    requires IsHex(s) && IsHexDigit(c)
    ensures IsHex(s + [c]) && (s != [] ==> (s + [c])[1..] == s[1..] + [c])
  {
  }

  lemma {:induction false} HexNumberAppend(s: string, c: char)
    requires IsHex(s) && IsHexDigit(c) && IsHex(s + [c])
    ensures HexNumber(s + [c]) == 16 * HexNumber(s) + Digit(c)
  {
    var t := s + [c];
    if s == [] {
      assert t[1..] == [] && Pow16(0) == 1;
    } else {
      AppendIsHex(s, c);
      AppendIsHex(s[1..], c);
      HexNumberAppend(s[1..], c);
      TimesSixteen(Digit(s[0]), Pow16(|s| - 1));
      assert HexNumber(t) == Digit(t[0]) * Pow16(|t| - 1) + HexNumber(t[1..]);
    }
  }

  lemma {:induction false} HexValueIsNumber(s: string)
    requires IsHex(s)
    ensures HexValue(s) == HexNumber(s)
  {
    if s != [] {
      var init, last := s[..|s| - 1], s[|s| - 1];
      HexValueIsNumber(init);
      assert init + [last] == s;
      HexNumberAppend(init, last);
    }
  }

  /** The address in small letters writes the same number. */
  lemma {:induction false} LowerIsSame(s: string)
    requires IsHex(s)
    ensures IsHex(Lower(s)) && HexNumber(Lower(s)) == HexNumber(s) && forall c | c in Lower(s) :: '0' <= c <= '9' || 'a' <= c <= 'f'
  {
    if s != [] {
      LowerIsSame(s[1..]);
      assert Lower(s)[1..] == Lower(s[1..]);
    }
  }

  /** The leg is a call without data that sends something. */
  ghost predicate SendsNative(l: Leg)
    requires WellFormed(l)
  {
    HexNumber(l.operation) == 0 && |l.data| == 0 && HexNumber(l.value) > 0
  }

  ghost function Listed(l: Leg, index: nat): (n: NativeLeg)
    requires WellFormed(l)
  {
    NativeLeg(index, "0x" + Lower(l.to), HexNumber(l.value))
  }

  lemma NativeIsSent(l: Leg, index: nat)
    requires WellFormed(l)
    ensures NativeOf(l, index) == if SendsNative(l) then [Listed(l, index)] else []
  {
    HexValueIsNumber(l.operation);
    HexValueIsNumber(l.value);
  }

  ghost predicate AllWellFormed(legs: seq<Leg>)
  {
    forall l | l in legs :: WellFormed(l)
  }

  /** n is listed for the leg at its position. */
  ghost predicate IsListed(legs: seq<Leg>, index: nat, n: NativeLeg)
    requires AllWellFormed(legs)
  {
    index <= n.index < index + |legs| && SendsNative(legs[n.index - index]) && n == Listed(legs[n.index - index], n.index)
  }

  lemma ListedLater(legs: seq<Leg>, index: nat, n: NativeLeg)
    requires AllWellFormed(legs) && legs != []
    ensures IsListed(legs, index, n) <==> IsListed(legs[1..], index + 1, n) || (SendsNative(legs[0]) && n == Listed(legs[0], index))
  {
  }

  /** The result lists exactly the legs that send native tokens, each under its position with its recipient and value. */
  lemma {:induction false} NativeLegsAre(legs: seq<Leg>, index: nat, n: NativeLeg)
    requires AllWellFormed(legs)
    ensures n in NativeLegs(legs, index) <==> IsListed(legs, index, n)
  {
    if legs != [] {
      NativeLegsAre(legs[1..], index + 1, n);
      NativeIsSent(legs[0], index);
      ListedLater(legs, index, n);
      assert NativeLegs(legs, index) == NativeOf(legs[0], index) + NativeLegs(legs[1..], index + 1);
    }
  }

  /** Positions only grow. */
  lemma {:induction false} NativeLegsInOrder(legs: seq<Leg>, index: nat)
    requires AllWellFormed(legs)
    ensures forall i, j | 0 <= i < j < |NativeLegs(legs, index)| :: NativeLegs(legs, index)[i].index < NativeLegs(legs, index)[j].index
  {
    if legs != [] {
      var rest := NativeLegs(legs[1..], index + 1);
      NativeLegsInOrder(legs[1..], index + 1);
      NativeIsSent(legs[0], index);
      forall n | n in rest
        ensures n.index > index
      {
        NativeLegsAre(legs[1..], index + 1, n);
      }
      assert NativeLegs(legs, index) == NativeOf(legs[0], index) + rest;
    }
  }
}
