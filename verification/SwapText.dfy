/**
 The buckets as the source keeps them: strings of swaps separated by bars, each of fields separated by
 commas. A printed number or id is one symbol here; it contains neither separator.
 */
module SwapText {
  import opened SwapBuffer

  datatype Symbol = Bar | Comma | Integer(n: nat) | Decimal(d: real)

  type Text = seq<Symbol>

  // --- split and join ---------------------------------------------------------------------------

  /** The pieces between separators; an empty text is one empty piece. */
  function Split(t: Text, separator: Symbol): (pieces: seq<Text>)
    ensures |pieces| >= 1
  {
    if t == [] then [[]]
    else
      var init, last := Split(t[..|t| - 1], separator), t[|t| - 1];
      if last == separator then init + [[]] else init[|init| - 1 := init[|init| - 1] + [last]]
  }

  function Join(pieces: seq<Text>, separator: Symbol): (t: Text)
  {
    if pieces == [] then []
    else if |pieces| == 1 then pieces[0]
    else Join(pieces[..|pieces| - 1], separator) + [separator] + pieces[|pieces| - 1]
  }

  lemma {:induction false} SplitAppend(t: Text, piece: Text, separator: Symbol)
    requires separator !in piece
    ensures Split(t + [separator] + piece, separator) == Split(t, separator) + [piece]
  {
    var all := t + [separator] + piece;
    if piece == [] {
      assert all[..|all| - 1] == t;
    } else {
      assert all[..|all| - 1] == t + [separator] + piece[..|piece| - 1];
      SplitAppend(t, piece[..|piece| - 1], separator);
      assert piece[..|piece| - 1] + [piece[|piece| - 1]] == piece;
    }
  }

  lemma {:induction false} SplitWhole(piece: Text, separator: Symbol)
    requires separator !in piece
    ensures Split(piece, separator) == [piece]
  {
    if piece != [] {
      SplitWhole(piece[..|piece| - 1], separator);
      assert piece[..|piece| - 1] + [piece[|piece| - 1]] == piece;
    }
  }

  lemma {:induction false} SplitJoin(pieces: seq<Text>, separator: Symbol)
    requires pieces != [] && forall p | p in pieces :: separator !in p
    ensures Split(Join(pieces, separator), separator) == pieces
  {
    var init, last := pieces[..|pieces| - 1], pieces[|pieces| - 1];
    if |pieces| == 1 {
      SplitWhole(last, separator);
    } else {
      SplitJoin(init, separator);
      SplitAppend(Join(init, separator), last, separator);
      assert init + [last] == pieces;
    }
  }

  // --- Swaps as text ----------------------------------------------------------------------------

  /** createSwapDataString: the id stands twice. */
  function SwapData(e: Entry): (t: Text)
    ensures t != []
  {
    [Integer(e.time), Comma, Integer(e.id), Comma, Decimal(e.slippage), Comma, Integer(e.expiresAt), Comma, Integer(e.id)]
  }

  function Fields(e: Entry): (f: seq<Text>)
  {
    [[Integer(e.time)], [Integer(e.id)], [Decimal(e.slippage)], [Integer(e.expiresAt)], [Integer(e.id)]]
  }

  lemma SwapDataFields(e: Entry)
    ensures Split(SwapData(e), Comma) == Fields(e)
  {
    var f := Fields(e);
    assert f[..4] + [f[4]] == f && f[..4][..3] == f[..3] && f[..3][..2] == f[..2] && f[..2][..1] == f[..1];
    assert Join(f[..1], Comma) == f[0];
    assert Join(f[..2], Comma) == f[0] + [Comma] + f[1];
    assert Join(f[..3], Comma) == f[0] + [Comma] + f[1] + [Comma] + f[2];
    assert Join(f[..4], Comma) == f[0] + [Comma] + f[1] + [Comma] + f[2] + [Comma] + f[3];
    assert Join(f, Comma) == SwapData(e);
    SplitJoin(f, Comma);
  }

  function Datas(s: seq<Entry>): (d: seq<Text>)
    ensures |d| == |s| && forall i | 0 <= i < |s| :: d[i] == SwapData(s[i])
  {
    seq(|s|, i requires 0 <= i < |s| => SwapData(s[i]))
  }

  /** A bucket's string. */
  function Render(s: seq<Entry>): (t: Text)
  {
    Join(Datas(s), Bar)
  }

  lemma RenderEmptyIff(s: seq<Entry>)
    ensures Render(s) == [] <==> s == []
  {
    if |s| == 1 {
      assert Render(s) == SwapData(s[0]);
    }
  }

  /** Appending a swap to a bucket's string, as addSwapToBuffer does. */
  lemma RenderAppend(s: seq<Entry>, e: Entry)
    ensures Render(s + [e]) == if s == [] then SwapData(e) else Render(s) + [Bar] + SwapData(e)
  {
    assert Datas(s + [e])[..|s|] == Datas(s);
  }

  lemma RenderSplits(s: seq<Entry>)
    requires s != []
    ensures Split(Render(s), Bar) == Datas(s)
  {
    SplitJoin(Datas(s), Bar);
  }

  // --- The methods over strings -----------------------------------------------------------------

  lemma ChargedNext(s: seq<Entry>, i: nat, now: nat)
    requires i < |s|
    ensures Charged(s[..i + 1], now) == Charged(s[..i], now) + (if Chargeable(s[i], now) then [s[i]] else [])
    ensures Remaining(s[..i + 1], now) == Remaining(s[..i], now) + (if Chargeable(s[i], now) then [] else [s[i]])
    ensures Slippage(s[..i + 1]) == Slippage(s[..i]) + s[i].slippage
  {
    assert s[..i + 1][..i] == s[..i];
  }

  /** parseTotalSlippageFromBucket. */
  method ParseTotalSlippage(bucket: Text, ghost s: seq<Entry>) returns (total: real)
    requires bucket == Render(s)
    ensures total == Slippage(s)
  {
    RenderEmptyIff(s);
    total := 0.0;
    if bucket == [] {
      return;
    }
    RenderSplits(s);
    var entries: seq<Text> := Split(bucket, Bar);
    for i := 0 to |entries|
      invariant total == Slippage(s[..i])
    {
      ChargedNext(s, i, 0);
      SwapDataFields(s[i]);
      if entries[i] == [] {
        continue;
      }
      var parts: seq<Text> := Split(entries[i], Comma);
      if |parts| >= 3 {
        total := total + parts[2][0].d;
      }
    }
    assert s[..|s|] == s;
  }

  /** Whether a swap of a bucket is charged now. */
  method IsCharged(entry: Text, now: nat, ghost e: Entry) returns (charged: bool)
    requires entry == SwapData(e)
    ensures charged == Chargeable(e, now)
  {
    SwapDataFields(e);
    var parts: seq<Text> := Split(entry, Comma);
    var time, expiresAt := parts[0][0].n, parts[3][0].n;
    charged := now - time <= ASSOCIATION_WINDOW && now <= expiresAt;
  }

  /** The swaps of one bucket: those charged to a position leave it. */
  method AssociateBucket(bucket: Text, now: nat, ghost s: seq<Entry>)
    returns (updated: Text, slippage: real, ids: set<nat>)
    requires bucket == Render(s)
    ensures updated == Render(Remaining(s, now)) && slippage == Slippage(Charged(s, now))
    ensures ids == Ids(Charged(s, now))
  {
    RenderEmptyIff(s);
    if bucket == [] {
      return [], 0.0, {};
    }
    RenderSplits(s);
    var associated, remaining := SortOut(Split(bucket, Bar), now, s);
    slippage, ids := 0.0, {};
    if |associated| > 0 {
      slippage := ParseTotalSlippage(Join(associated, Bar), Charged(s, now));
      ids := AssociatedIds(associated, Charged(s, now));
    }
    updated := Join(remaining, Bar);
  }

  /** The loop over a bucket's swaps: which are charged and which remain. */
  method SortOut(entries: seq<Text>, now: nat, ghost s: seq<Entry>) returns (associated: seq<Text>, remaining: seq<Text>)
    requires entries == Datas(s)
    ensures associated == Datas(Charged(s, now)) && remaining == Datas(Remaining(s, now))
  {
    associated, remaining := [], [];
    for i := 0 to |entries|
      invariant associated == Datas(Charged(s[..i], now)) && remaining == Datas(Remaining(s[..i], now))
    {
      ChargedNext(s, i, now);
      SwapDataFields(s[i]);
      if entries[i] == [] {
        continue;
      }
      var parts: seq<Text> := Split(entries[i], Comma);
      if |parts| >= 4 {
        var charged := IsCharged(entries[i], now, s[i]);
        if charged {
          associated := associated + [entries[i]];
        } else {
          remaining := remaining + [entries[i]];
        }
      }
    }
    assert s[..|s|] == s;
  }

  function Ids(s: seq<Entry>): (ids: set<nat>)
  {
    set e | e in s :: e.id
  }

  method AssociatedIds(associated: seq<Text>, ghost s: seq<Entry>) returns (ids: set<nat>)
    requires associated == Datas(s)
    ensures ids == Ids(s)
  {
    ids := {};
    for j := 0 to |associated|
      invariant ids == Ids(s[..j])
    {
      SwapDataFields(s[j]);
      var parts: seq<Text> := Split(associated[j], Comma);
      assert s[..j + 1] == s[..j] + [s[j]];
      if |parts| >= 5 {
        ids := ids + {parts[4][0].n};
      }
    }
    assert s[..|s|] == s;
  }

  /** `associated` are the swaps whose transaction rows are marked. */
  class AgentSwapBuffer {
    var bucket0: Text
    var bucket1: Text
    var bucket2: Text
    var bucket3: Text
    var index: nat
    var total: real
    var associated: set<nat>

    /** The row made for an agent's first swap. */
    constructor (time: nat)
      ensures Shows(Buffer([], [], [], [], BucketIndex(time), 0.0)) && associated == {}
    {
      bucket0, bucket1, bucket2, bucket3 := [], [], [], [];
      index, total, associated := BucketIndex(time), 0.0, {};
    }

    ghost predicate Shows(b: Buffer)
      reads this
    {
      && bucket0 == Render(b.b0) && bucket1 == Render(b.b1) && bucket2 == Render(b.b2) && bucket3 == Render(b.b3)
      && index == b.index && total == b.total
    }

    method AddSwap(time: nat, id: nat, slippage: real, ghost b: Buffer)
      requires Shows(b)
      modifies this
      ensures Shows(Added(b, NewEntry(time, id, slippage))) && associated == old(associated)
    {
      var newIndex := BucketIndex(time);
      if newIndex > index {
        bucket3 := bucket2;
        bucket2 := bucket1;
        bucket1 := bucket0;
        bucket0 := [];
        index := newIndex;
      }
      var e := NewEntry(time, id, slippage);
      var m := Rotated(b, time);
      RenderAppend(m.b0, e);
      RenderEmptyIff(m.b0);
      if bucket0 == [] {
        bucket0 := SwapData(e);
      } else {
        bucket0 := bucket0 + [Bar] + SwapData(e);
      }
      total := total + slippage;
    }

    method AssociateSwaps(now: nat, ghost b: Buffer) returns (cost: real)
      requires Shows(b)
      modifies this
      ensures Shows(Associated(b, now)) && cost == Charge(b, now)
      ensures associated == old(associated) + Ids(ChargedOf(b, now))
    {
      var t0, s0, i0 := AssociateBucket(bucket0, now, b.b0);
      var t1, s1, i1 := AssociateBucket(bucket1, now, b.b1);
      var t2, s2, i2 := AssociateBucket(bucket2, now, b.b2);
      var t3, s3, i3 := AssociateBucket(bucket3, now, b.b3);
      bucket0, bucket1, bucket2, bucket3 := t0, t1, t2, t3;
      associated := Marked(i0, i1, i2, i3, b, now);
      cost := Cost(s0, s1, s2, s3, b, now);
    }

    /** The slippage of all four buckets, or nothing if it is a gain. */
    static method Cost(s0: real, s1: real, s2: real, s3: real, ghost b: Buffer, ghost now: nat) returns (cost: real)
      requires s0 == Slippage(Charged(b.b0, now)) && s1 == Slippage(Charged(b.b1, now))
      requires s2 == Slippage(Charged(b.b2, now)) && s3 == Slippage(Charged(b.b3, now))
      ensures cost == Charge(b, now)
    {
      ChargedParts(b, now);
      cost := s0 + s1 + s2 + s3;
      if cost < 0.0 {
        cost := 0.0;
      }
    }

    /** The transactions marked once the swaps of all four buckets are. */
    method Marked(i0: set<nat>, i1: set<nat>, i2: set<nat>, i3: set<nat>, ghost b: Buffer, ghost now: nat) returns (m: set<nat>)
      requires i0 == Ids(Charged(b.b0, now)) && i1 == Ids(Charged(b.b1, now))
      requires i2 == Ids(Charged(b.b2, now)) && i3 == Ids(Charged(b.b3, now))
      ensures m == associated + Ids(ChargedOf(b, now))
    {
      IdsConcat(Charged(b.b0, now), Charged(b.b1, now));
      IdsConcat(Charged(b.b0, now) + Charged(b.b1, now), Charged(b.b2, now));
      IdsConcat(Charged(b.b0, now) + Charged(b.b1, now) + Charged(b.b2, now), Charged(b.b3, now));
      m := associated + (i0 + i1 + i2 + i3);
    }
  }

  lemma IdsConcat(a: seq<Entry>, b: seq<Entry>)
    ensures Ids(a + b) == Ids(a) + Ids(b)
  {
    assert forall e :: e in a + b <==> e in a || e in b;
  }

  lemma ChargedParts(b: Buffer, now: nat)
    ensures Slippage(ChargedOf(b, now)) == Slippage(Charged(b.b0, now)) + Slippage(Charged(b.b1, now))
                                           + Slippage(Charged(b.b2, now)) + Slippage(Charged(b.b3, now))
  {
    var c := Buffer(Charged(b.b0, now), Charged(b.b1, now), Charged(b.b2, now), Charged(b.b3, now), 0, 0.0);
    SlippageAll(c);
    assert All(c) == ChargedOf(b, now);
  }
}
