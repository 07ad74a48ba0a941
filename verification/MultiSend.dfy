/** The packed legs of a MultiSend call: unpackMultiSend of squids/pearl-transactions/src/logic.ts. */
module MultiSend {
  import opened Wrappers

  const OPERATION_WIDTH := 2
  const ADDRESS_WIDTH := 40
  const WORD_WIDTH := 64
  const TO_START := OPERATION_WIDTH
  const VALUE_START := TO_START + ADDRESS_WIDTH
  const DATA_LENGTH_START := VALUE_START + WORD_WIDTH
  const HEAD_WIDTH := DATA_LENGTH_START + WORD_WIDTH

  // --- Hex --------------------------------------------------------------------------------------

  predicate IsHexDigit(c: char)
  {
    '0' <= c <= '9' || 'a' <= c <= 'f' || 'A' <= c <= 'F'
  }

  predicate IsHex(s: string)
  {
    forall i | 0 <= i < |s| :: IsHexDigit(s[i])
  }

  function Digit(c: char): (d: nat)
    requires IsHexDigit(c)
    ensures d < 16
  {
    if '0' <= c <= '9' then c as int - '0' as int
    else if 'a' <= c <= 'f' then c as int - 'a' as int + 10
    else c as int - 'A' as int + 10
  }

  function HexValue(s: string): (v: nat)
    requires IsHex(s)
  {
    if s == [] then 0 else 16 * HexValue(s[..|s| - 1]) + Digit(s[|s| - 1])
  }

  function Lower(s: string): (l: string)
  {
    seq(|s|, i requires 0 <= i < |s| => if 'A' <= s[i] <= 'Z' then (s[i] as int + 32) as char else s[i])
  }

  // --- The format of legs ---------------------------------------------------------------------------

  /** One leg by its fields, in hex characters: operation, address, value and data length, then the data. */
  datatype Leg = Leg(operation: string, to: string, value: string, length: string, data: string)

  ghost predicate WellFormed(l: Leg)
  {
    && |l.operation| == OPERATION_WIDTH && |l.to| == ADDRESS_WIDTH && |l.value| == WORD_WIDTH && |l.length| == WORD_WIDTH
    && IsHex(l.operation) && IsHex(l.to) && IsHex(l.value) && IsHex(l.length) && IsHex(l.data)
    && 2 * HexValue(l.length) == |l.data|
  }

  function Pack(l: Leg): (s: string)
  {
    l.operation + l.to + l.value + l.length + l.data
  }

  function PackAll(legs: seq<Leg>): (s: string)
  {
    if legs == [] then [] else Pack(legs[0]) + PackAll(legs[1..])
  }

  /** A plain native transfer and its position among the legs. */
  datatype NativeLeg = NativeLeg(index: nat, to: string, value: nat)

  ghost predicate IsNative(l: Leg)
    requires WellFormed(l)
  {
    HexValue(l.operation) == 0 && l.data == [] && HexValue(l.value) > 0
  }

  ghost function NativeOf(l: Leg, index: nat): (n: seq<NativeLeg>)
    requires WellFormed(l)
  {
    if IsNative(l) then [NativeLeg(index, "0x" + Lower(l.to), HexValue(l.value))] else []
  }

  /** The native transfers among the legs, numbered from `index`. */
  ghost function NativeLegs(legs: seq<Leg>, index: nat): (n: seq<NativeLeg>)
    requires forall l | l in legs :: WellFormed(l)
  {
    if legs == [] then [] else NativeOf(legs[0], index) + NativeLegs(legs[1..], index + 1)
  }

  // --- Reading legs -----------------------------------------------------------------------------

  function HeadOf(hex: string, length: nat): (l: Leg)
    requires HEAD_WIDTH + 2 * length <= |hex|
  {
    Leg(hex[..TO_START], hex[TO_START..VALUE_START], hex[VALUE_START..DATA_LENGTH_START],
        hex[DATA_LENGTH_START..HEAD_WIDTH], hex[HEAD_WIDTH..HEAD_WIDTH + 2 * length])
  }

  /** The legs a hex string consists of, if it is made of legs only. */
  ghost function Parse(hex: string): (legs: Option<seq<Leg>>)
    requires IsHex(hex)
    decreases |hex|
  {
    if hex == [] then Some([])
    else if |hex| < HEAD_WIDTH then None
    else
      var length := HexValue(hex[DATA_LENGTH_START..HEAD_WIDTH]);
      if 2 * length > |hex| - HEAD_WIDTH then None
      else
        match Parse(hex[HEAD_WIDTH + 2 * length..])
        case None => None
        case Some(rest) => Some([HeadOf(hex, length)] + rest)
  }

  lemma PackParts(l: Leg, rest: string)
    requires WellFormed(l)
    ensures var s := Pack(l) + rest; var n := HexValue(l.length);
            && |s| == HEAD_WIDTH + 2 * n + |rest| && HeadOf(s, n) == l
            && s[DATA_LENGTH_START..HEAD_WIDTH] == l.length && s[HEAD_WIDTH + 2 * n..] == rest
  {
    var s, n := Pack(l) + rest, HexValue(l.length);
    assert s[..TO_START] == l.operation;
    assert s[TO_START..VALUE_START] == l.to;
    assert s[VALUE_START..DATA_LENGTH_START] == l.value;
    assert s[DATA_LENGTH_START..HEAD_WIDTH] == l.length;
    assert s[HEAD_WIDTH..HEAD_WIDTH + 2 * n] == l.data;
    assert s[HEAD_WIDTH + 2 * n..] == rest;
  }

  lemma PackIsHex(l: Leg, rest: string)
    requires WellFormed(l) && IsHex(rest)
    ensures IsHex(Pack(l) + rest)
  {
  }

  function Prepended(l: Leg, rest: Option<seq<Leg>>): (legs: Option<seq<Leg>>)
  {
    match rest
    case None => None
    case Some(legs) => Some([l] + legs)
  }

  lemma ParseLeg(l: Leg, rest: string)
    requires WellFormed(l) && IsHex(rest)
    ensures IsHex(Pack(l) + rest) && Parse(Pack(l) + rest) == Prepended(l, Parse(rest))
  {
    PackIsHex(l, rest);
    PackParts(l, rest);
  }

  /** Reading a packing gives its legs back. */
  lemma {:induction false} ParsePacked(legs: seq<Leg>)
    requires forall l | l in legs :: WellFormed(l)
    ensures IsHex(PackAll(legs)) && Parse(PackAll(legs)) == Some(legs)
  {
    if legs != [] {
      ParsePacked(legs[1..]);
      ParseLeg(legs[0], PackAll(legs[1..]));
      assert [legs[0]] + legs[1..] == legs;
    }
  }

  lemma PackIsEven(l: Leg)
    requires WellFormed(l)
    ensures |Pack(l)| == HEAD_WIDTH + 2 * HexValue(l.length)
  {
  }

  lemma {:induction false} PackedIsEven(legs: seq<Leg>)
    requires forall l | l in legs :: WellFormed(l)
    ensures |PackAll(legs)| % 2 == 0
  {
    if legs != [] {
      PackedIsEven(legs[1..]);
      PackIsEven(legs[0]);
      assert |PackAll(legs)| == |Pack(legs[0])| + |PackAll(legs[1..])|;
    }
  }

  lemma HeadPacks(hex: string, length: nat)
    requires IsHex(hex) && HEAD_WIDTH + 2 * length <= |hex| && length == HexValue(hex[DATA_LENGTH_START..HEAD_WIDTH])
    ensures WellFormed(HeadOf(hex, length)) && Pack(HeadOf(hex, length)) + hex[HEAD_WIDTH + 2 * length..] == hex
  {
  }

  lemma PackCons(l: Leg, legs: seq<Leg>)
    ensures PackAll([l] + legs) == Pack(l) + PackAll(legs)
  {
    assert ([l] + legs)[1..] == legs;
  }

  /** What is read packs to the string it was read from. */
  lemma {:induction false} PackParsed(hex: string)
    requires IsHex(hex) && Parse(hex).Some?
    ensures PackAll(Parse(hex).value) == hex && forall l | l in Parse(hex).value :: WellFormed(l)
    decreases |hex|
  {
    if hex != [] {
      var length := HexValue(hex[DATA_LENGTH_START..HEAD_WIDTH]);
      var rest := hex[HEAD_WIDTH + 2 * length..];
      PackParsed(rest);
      HeadPacks(hex, length);
      PackCons(HeadOf(hex, length), Parse(rest).value);
    }
  }

  // --- unpackMultiSend --------------------------------------------------------------------------

  function Stripped(transactions: string): (hex: string)
  {
    if |transactions| >= 2 && transactions[..2] == "0x" then transactions[2..] else transactions
  }

  ghost function Unpack(transactions: string): (r: Option<seq<NativeLeg>>)
  {
    var hex := Stripped(transactions);
    if |hex| % 2 != 0 || !IsHex(hex) then None
    else
      match Parse(hex)
      case None => None
      case Some(legs) => PackParsed(hex); Some(NativeLegs(legs, 0))
  }

  ghost predicate IsPacking(hex: string, legs: seq<Leg>)
  {
    (forall l | l in legs :: WellFormed(l)) && PackAll(legs) == hex
  }

  /** A buffer unpacks exactly when it is a packing of well-formed legs. */
  lemma UnpacksIff(transactions: string)
    ensures Unpack(transactions).Some? <==> exists legs :: IsPacking(Stripped(transactions), legs)
  {
    var hex := Stripped(transactions);
    if Unpack(transactions).Some? {
      PackParsed(hex);
      assert IsPacking(hex, Parse(hex).value);
    }
    forall legs | IsPacking(hex, legs)
      ensures Unpack(transactions).Some?
    {
      ParsePacked(legs);
      PackedIsEven(legs);
    }
  }

  lemma HexHasNoPrefix(hex: string)
    requires IsHex(hex)
    ensures Stripped(hex) == hex
  {
    if |hex| >= 2 {
      assert hex[..2][1] == hex[1] && "0x"[1] == 'x';
    }
  }

  /** On the packing of any legs it returns exactly their plain native transfers, with or without a prefix. */
  lemma UnpackPacked(legs: seq<Leg>)
    requires forall l | l in legs :: WellFormed(l)
    ensures Unpack(PackAll(legs)) == Some(NativeLegs(legs, 0)) && Unpack("0x" + PackAll(legs)) == Some(NativeLegs(legs, 0))
  {
    ParsePacked(legs);
    PackedIsEven(legs);
    var hex := PackAll(legs);
    HexHasNoPrefix(hex);
    assert ("0x" + hex)[2..] == hex && ("0x" + hex)[..2] == "0x";
  }

  /** The legs already read, and those still to be. */
  ghost predicate Reading(hex: string, pos: nat, done: seq<Leg>)
  {
    && IsHex(hex) && pos <= |hex| && (forall l | l in done :: WellFormed(l))
    && (Parse(hex).Some? <==> Parse(hex[pos..]).Some?)
    && (Parse(hex).Some? ==> Parse(hex).value == done + Parse(hex[pos..]).value)
  }

  lemma AllRead(hex: string, done: seq<Leg>)
    requires Reading(hex, |hex|, done)
    ensures Parse(hex) == Some(done)
  {
    assert hex[|hex|..] == [];
    assert done + [] == done;
  }

  /** What is left at `pos` does not start with a leg. */
  lemma NothingToRead(hex: string, pos: nat, done: seq<Leg>)
    requires Reading(hex, pos, done) && pos < |hex|
    requires |hex| - pos < HEAD_WIDTH ||
             2 * HexValue(hex[pos..][DATA_LENGTH_START..HEAD_WIDTH]) > |hex| - pos - HEAD_WIDTH
    ensures Parse(hex) == None
  {
  }

  lemma ParseHead(hex: string, length: nat)
    requires IsHex(hex) && HEAD_WIDTH + 2 * length <= |hex| && length == HexValue(hex[DATA_LENGTH_START..HEAD_WIDTH])
    ensures Parse(hex) == Prepended(HeadOf(hex, length), Parse(hex[HEAD_WIDTH + 2 * length..]))
  {
  }

  lemma ReadOn(hex: string, pos: nat, next: nat, done: seq<Leg>, l: Leg)
    requires Reading(hex, pos, done) && next <= |hex| && WellFormed(l)
    requires Parse(hex[pos..]) == Prepended(l, Parse(hex[next..]))
    ensures Reading(hex, next, done + [l])
  {
    if Parse(hex[next..]).Some? {
      assert done + ([l] + Parse(hex[next..]).value) == (done + [l]) + Parse(hex[next..]).value;
    }
  }

  /** Reading one more leg. */
  lemma ReadOne(hex: string, pos: nat, done: seq<Leg>, length: nat)
    requires Reading(hex, pos, done) && pos + HEAD_WIDTH + 2 * length <= |hex|
    requires length == HexValue(hex[pos..][DATA_LENGTH_START..HEAD_WIDTH])
    ensures Reading(hex, pos + HEAD_WIDTH + 2 * length, done + [HeadOf(hex[pos..], length)])
  {
    var rest, next := hex[pos..], pos + HEAD_WIDTH + 2 * length;
    assert rest[HEAD_WIDTH + 2 * length..] == hex[next..];
    HeadPacks(rest, length);
    ParseHead(rest, length);
    ReadOn(hex, pos, next, done, HeadOf(rest, length));
  }

  lemma {:induction false} NativeLegsAppend(legs: seq<Leg>, l: Leg, index: nat)
    requires WellFormed(l) && forall l | l in legs :: WellFormed(l)
    ensures NativeLegs(legs + [l], index) == NativeLegs(legs, index) + NativeOf(l, index + |legs|)
  {
    if legs != [] {
      NativeLegsAppend(legs[1..], l, index + 1);
      assert (legs + [l])[1..] == legs[1..] + [l];
    }
  }

  /** The plain native legs among those read. */
  ghost predicate ReadSoFar(hex: string, pos: nat, index: nat, legs: seq<NativeLeg>, done: seq<Leg>)
  {
    Reading(hex, pos, done) && index == |done| && legs == NativeLegs(done, 0)
  }

  method UnpackMultiSend(transactions: string) returns (r: Option<seq<NativeLeg>>)
    ensures r == Unpack(transactions)
  {
    var hex := Stripped(transactions);
    if |hex| % 2 != 0 || !IsHex(hex) {
      return None;
    }
    var legs: seq<NativeLeg>, pos, index := [], 0, 0;
    ghost var done: seq<Leg> := [];
    NothingRead(hex);
    while pos < |hex|
      invariant ReadSoFar(hex, pos, index, legs, done)
    {
      var ok;
      ok, pos, legs, done := ReadLeg(hex, pos, index, legs, done);
      if !ok {
        return None;
      }
      index := index + 1;
    }
    AllRead(hex, done);
    return Some(legs);
  }

  lemma NothingRead(hex: string)
    requires IsHex(hex)
    ensures ReadSoFar(hex, 0, 0, [], [])
  {
    assert hex[0..] == hex;
  }

  lemma ReadSoFarNext(hex: string, pos: nat, index: nat, legs: seq<NativeLeg>, done: seq<Leg>, length: nat)
    requires ReadSoFar(hex, pos, index, legs, done) && pos + HEAD_WIDTH + 2 * length <= |hex|
    requires length == HexValue(hex[pos..][DATA_LENGTH_START..HEAD_WIDTH])
    requires WellFormed(HeadOf(hex[pos..], length))
    ensures var l := HeadOf(hex[pos..], length);
            ReadSoFar(hex, pos + HEAD_WIDTH + 2 * length, index + 1, legs + NativeOf(l, index), done + [l])
  {
    ReadOne(hex, pos, done, length);
    NativeLegsAppend(done, HeadOf(hex[pos..], length), 0);
  }

  /** One pass of the loop: the leg at `pos`, unless none starts there. */
  method ReadLeg(hex: string, pos: nat, index: nat, legs0: seq<NativeLeg>, ghost done0: seq<Leg>)
    returns (ok: bool, next: nat, legs: seq<NativeLeg>, ghost done: seq<Leg>)
    requires ReadSoFar(hex, pos, index, legs0, done0) && pos < |hex|
    ensures if ok then pos < next && ReadSoFar(hex, next, index + 1, legs, done) else Parse(hex) == None
  {
    next, legs, done := pos, legs0, done0;
    if |hex| - pos < HEAD_WIDTH {
      NothingToRead(hex, pos, done);
      return false, next, legs, done;
    }
    var leg := hex[pos..];
    var length := HexValue(leg[DATA_LENGTH_START..HEAD_WIDTH]);
    if length * 2 > |hex| - (pos + HEAD_WIDTH) {
      NothingToRead(hex, pos, done);
      return false, next, legs, done;
    }
    var native := AsNative(leg, length, index);
    ReadSoFarNext(hex, pos, index, legs, done, length);
    ok, next, legs, done := true, pos + HEAD_WIDTH + 2 * length, legs + native, done + [HeadOf(leg, length)];
  }

  /** The leg a string starts with, if it is a plain native transfer. */
  method AsNative(leg: string, length: nat, index: nat) returns (native: seq<NativeLeg>)
    requires IsHex(leg) && HEAD_WIDTH + 2 * length <= |leg| && length == HexValue(leg[DATA_LENGTH_START..HEAD_WIDTH])
    ensures WellFormed(HeadOf(leg, length)) && native == NativeOf(HeadOf(leg, length), index)
  {
    HeadPacks(leg, length);
    var operation, to := HexValue(leg[..TO_START]), "0x" + Lower(leg[TO_START..VALUE_START]);
    var value := HexValue(leg[VALUE_START..DATA_LENGTH_START]);
    native := if operation == 0 && length == 0 && value > 0 then [NativeLeg(index, to, value)] else [];
  }
}
