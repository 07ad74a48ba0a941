/**
 The rotating buffer of recent swaps in subgraphs/babydegen-mode/src: addSwapToBuffer of swapTracking.ts
 and associateSwapsWithPosition of helpers.ts, over the swaps the buckets hold.
 */
module SwapBuffer {
  const ASSOCIATION_WINDOW := 1200
  const BUCKET_SECONDS := 300

  /** One swap as it is filed in a bucket. */
  datatype Entry = Entry(time: nat, id: nat, slippage: real, expiresAt: nat)

  function NewEntry(time: nat, id: nat, slippage: real): (e: Entry)
  {
    Entry(time, id, slippage, time + ASSOCIATION_WINDOW)
  }

  function BucketIndex(time: nat): (i: nat)
  {
    time / BUCKET_SECONDS
  }

  /** The four buckets, newest first; `index` is the bucket index of the newest. */
  datatype Buffer = Buffer(b0: seq<Entry>, b1: seq<Entry>, b2: seq<Entry>, b3: seq<Entry>, index: nat, total: real)

  function All(b: Buffer): (s: seq<Entry>)
  {
    b.b0 + b.b1 + b.b2 + b.b3
  }

  /** A swap in a newer five minutes than the buffer's shifts every bucket by one, however many have passed. */
  function Rotated(b: Buffer, time: nat): (n: Buffer)
  {
    if BucketIndex(time) > b.index then Buffer([], b.b0, b.b1, b.b2, BucketIndex(time), b.total) else b
  }

  /** The swaps that fall out of the last bucket. */
  function Dropped(b: Buffer, time: nat): (s: seq<Entry>)
  {
    if BucketIndex(time) > b.index then b.b3 else []
  }

  function Added(b: Buffer, e: Entry): (n: Buffer)
  {
    var m := Rotated(b, e.time);
    m.(b0 := m.b0 + [e], total := m.total + e.slippage)
  }

  predicate Chargeable(e: Entry, now: nat)
  {
    now - e.time <= ASSOCIATION_WINDOW && now <= e.expiresAt
  }

  function Charged(s: seq<Entry>, now: nat): (c: seq<Entry>)
  {
    if s == [] then []
    else Charged(s[..|s| - 1], now) + (if Chargeable(s[|s| - 1], now) then [s[|s| - 1]] else [])
  }

  function Remaining(s: seq<Entry>, now: nat): (r: seq<Entry>)
  {
    if s == [] then []
    else Remaining(s[..|s| - 1], now) + (if Chargeable(s[|s| - 1], now) then [] else [s[|s| - 1]])
  }

  /** An association takes every chargeable swap out of the buckets, whatever position it is for. */
  function Associated(b: Buffer, now: nat): (n: Buffer)
  {
    b.(b0 := Remaining(b.b0, now), b1 := Remaining(b.b1, now), b2 := Remaining(b.b2, now), b3 := Remaining(b.b3, now))
  }

  function ChargedOf(b: Buffer, now: nat): (c: seq<Entry>)
  {
    Charged(b.b0, now) + Charged(b.b1, now) + Charged(b.b2, now) + Charged(b.b3, now)
  }

  function Slippage(s: seq<Entry>): (t: real)
  {
    if s == [] then 0.0 else Slippage(s[..|s| - 1]) + s[|s| - 1].slippage
  }

  /** What is charged to the position: the slippage of the swaps taken, or nothing if that is a gain. */
  function Charge(b: Buffer, now: nat): (c: real)
    ensures c >= 0.0 && c >= Slippage(ChargedOf(b, now))
    ensures c == 0.0 || c == Slippage(ChargedOf(b, now))
  {
    var t := Slippage(ChargedOf(b, now));
    if t < 0.0 then 0.0 else t
  }

  // --- Runs -------------------------------------------------------------------------------------

  datatype Event = Swap(time: nat, id: nat, slippage: real) | Associate(now: nat)

  /** A swap that left the buckets, and when. */
  datatype Gone = Gone(entry: Entry, at: nat)

  /** The buffer of one agent, none before its first swap, with the swaps that left it. */
  datatype State = State(created: bool, buffer: Buffer, added: seq<Entry>, dropped: seq<Gone>, charged: seq<Gone>)

  const INITIAL := State(false, Buffer([], [], [], [], 0, 0.0), [], [], [])

  function At(s: seq<Entry>, time: nat): (g: seq<Gone>)
  {
    seq(|s|, i requires 0 <= i < |s| => Gone(s[i], time))
  }

  function Step(s: State, event: Event): (n: State)
  {
    match event
    case Swap(time, id, slippage) =>
      var b := if s.created then s.buffer else s.buffer.(index := BucketIndex(time));
      var e := NewEntry(time, id, slippage);
      State(true, Added(b, e), s.added + [e], s.dropped + At(Dropped(b, time), time), s.charged)
    case Associate(now) =>
      if !s.created then s
      else s.(buffer := Associated(s.buffer, now), charged := s.charged + At(ChargedOf(s.buffer, now), now))
  }

  function Run(events: seq<Event>): (s: State)
  {
    if events == [] then INITIAL else Step(Run(events[..|events| - 1]), events[|events| - 1])
  }

  // --- What every run keeps ---------------------------------------------------------------------

  function Entries(g: seq<Gone>): (s: seq<Entry>)
  {
    seq(|g|, i requires 0 <= i < |g| => g[i].entry)
  }

  /** Bucket j holds only swaps at least j bucket indices older than the newest bucket. */
  ghost predicate Aged(s: seq<Entry>, j: nat, index: nat)
  {
    forall e | e in s :: BucketIndex(e.time) + j <= index && e.expiresAt == e.time + ASSOCIATION_WINDOW
  }

  lemma {:induction false} SlippageConcat(a: seq<Entry>, b: seq<Entry>)
    ensures Slippage(a + b) == Slippage(a) + Slippage(b)
  {
    if b == [] {
      assert a + b == a;
    } else {
      assert (a + b)[..|a + b| - 1] == a + b[..|b| - 1];
      SlippageConcat(a, b[..|b| - 1]);
    }
  }

  /** A bucket's swaps are either charged or remain. */
  lemma {:induction false} Partition(s: seq<Entry>, now: nat)
    ensures multiset(s) == multiset(Charged(s, now)) + multiset(Remaining(s, now))
  {
    if s != [] {
      Partition(s[..|s| - 1], now);
      assert s == s[..|s| - 1] + [s[|s| - 1]];
    }
  }

  lemma {:induction false} PartitionSlippage(s: seq<Entry>, now: nat)
    ensures Slippage(s) == Slippage(Charged(s, now)) + Slippage(Remaining(s, now))
  {
    if s != [] {
      var init, last := s[..|s| - 1], s[|s| - 1];
      PartitionSlippage(init, now);
      SlippageAdd(Charged(init, now), last);
      SlippageAdd(Remaining(init, now), last);
      assert Charged(init, now) + [] == Charged(init, now) && Remaining(init, now) + [] == Remaining(init, now);
    }
  }

  lemma SlippageAdd(s: seq<Entry>, e: Entry)
    ensures Slippage(s + [e]) == Slippage(s) + e.slippage
  {
    assert (s + [e])[..|s|] == s;
  }

  lemma {:induction false} PartitionIn(s: seq<Entry>, now: nat)
    ensures forall e | e in Charged(s, now) :: e in s && Chargeable(e, now)
    ensures forall e | e in Remaining(s, now) :: e in s
  {
    if s != [] {
      PartitionIn(s[..|s| - 1], now);
    }
  }

  lemma EntriesAt(g: seq<Gone>, s: seq<Entry>, time: nat)
    ensures Entries(g + At(s, time)) == Entries(g) + s
  {
  }

  lemma SlippageAll(b: Buffer)
    ensures Slippage(All(b)) == Slippage(b.b0) + Slippage(b.b1) + Slippage(b.b2) + Slippage(b.b3)
  {
    SlippageConcat(b.b0, b.b1);
    SlippageConcat(b.b0 + b.b1, b.b2);
    SlippageConcat(b.b0 + b.b1 + b.b2, b.b3);
  }

  // --- The invariants, one by one ---------------------------------------------------------------

  ghost predicate AgesValid(b: Buffer)
  {
    Aged(b.b0, 0, b.index) && Aged(b.b1, 1, b.index) && Aged(b.b2, 2, b.index) && Aged(b.b3, 3, b.index)
  }

  /** Every swap added is in exactly one place: a bucket, the dropped ones, or the charged ones. */
  ghost predicate Accounted(s: State)
  {
    multiset(s.added) == multiset(All(s.buffer)) + multiset(Entries(s.dropped)) + multiset(Entries(s.charged))
  }

  /** The total is of all swaps ever added, and their slippage is in the buckets, dropped or charged. */
  ghost predicate Conserved(s: State)
  {
    && s.buffer.total == Slippage(s.added)
    && s.buffer.total == Slippage(All(s.buffer)) + Slippage(Entries(s.dropped)) + Slippage(Entries(s.charged))
  }

  /** No swap is dropped until more than 900 seconds after it, or charged later than its window. */
  ghost predicate InTime(s: State)
  {
    && (forall g | g in s.dropped :: g.at > g.entry.time + 900)
    && (forall g | g in s.charged :: g.at <= g.entry.time + ASSOCIATION_WINDOW)
  }

  ghost predicate Valid(s: State)
  {
    AgesValid(s.buffer) && Accounted(s) && Conserved(s) && InTime(s)
  }

  lemma SwapAges(s: State, time: nat, id: nat, slippage: real)
    requires AgesValid(s.buffer) && (s.created || All(s.buffer) == []) && InTime(s)
    ensures AgesValid(Step(s, Swap(time, id, slippage)).buffer) && InTime(Step(s, Swap(time, id, slippage)))
  {
    var b := if s.created then s.buffer else s.buffer.(index := BucketIndex(time));
    assert AgesValid(b);
    forall e | e in Dropped(b, time)
      ensures time > e.time + 900
    {
      assert BucketIndex(e.time) + 3 <= b.index < BucketIndex(time);
    }
  }

  lemma SwapAccounted(s: State, time: nat, id: nat, slippage: real)
    requires Accounted(s)
    ensures Accounted(Step(s, Swap(time, id, slippage)))
  {
    var b := if s.created then s.buffer else s.buffer.(index := BucketIndex(time));
    EntriesAt(s.dropped, Dropped(b, time), time);
    assert multiset(All(s.buffer)) == multiset(b.b0) + multiset(b.b1) + multiset(b.b2) + multiset(b.b3);
  }

  lemma AddedSlippage(b: Buffer, e: Entry)
    ensures Slippage(All(Added(b, e))) + Slippage(Dropped(b, e.time)) == Slippage(All(b)) + e.slippage
  {
    SlippageAdd(Rotated(b, e.time).b0, e);
    SlippageAll(b);
    SlippageAll(Added(b, e));
  }

  lemma SwapConserved(s: State, time: nat, id: nat, slippage: real)
    requires Conserved(s)
    ensures Conserved(Step(s, Swap(time, id, slippage)))
  {
    var b, e := if s.created then s.buffer else s.buffer.(index := BucketIndex(time)), NewEntry(time, id, slippage);
    assert All(b) == All(s.buffer);
    SlippageAdd(s.added, e);
    EntriesAt(s.dropped, Dropped(b, time), time);
    SlippageConcat(Entries(s.dropped), Dropped(b, time));
    AddedSlippage(b, e);
  }

  lemma AssociateAges(s: State, now: nat)
    requires AgesValid(s.buffer) && InTime(s)
    ensures AgesValid(Step(s, Associate(now)).buffer) && InTime(Step(s, Associate(now)))
  {
    PartitionIn(s.buffer.b0, now);
    PartitionIn(s.buffer.b1, now);
    PartitionIn(s.buffer.b2, now);
    PartitionIn(s.buffer.b3, now);
  }

  lemma AssociateAccounted(s: State, now: nat)
    requires Accounted(s)
    ensures Accounted(Step(s, Associate(now)))
  {
    var b := s.buffer;
    EntriesAt(s.charged, ChargedOf(b, now), now);
    Partition(b.b0, now);
    Partition(b.b1, now);
    Partition(b.b2, now);
    Partition(b.b3, now);
    assert multiset(All(b)) == multiset(b.b0) + multiset(b.b1) + multiset(b.b2) + multiset(b.b3);
  }

  lemma ChargedSlippage(b: Buffer, now: nat)
    ensures Slippage(ChargedOf(b, now)) + Slippage(All(Associated(b, now))) == Slippage(All(b))
  {
    var c := Buffer(Charged(b.b0, now), Charged(b.b1, now), Charged(b.b2, now), Charged(b.b3, now), 0, 0.0);
    SlippageAll(c);
    assert All(c) == ChargedOf(b, now);
    SlippageAll(Associated(b, now));
    SlippageAll(b);
    PartitionSlippage(b.b0, now);
    PartitionSlippage(b.b1, now);
    PartitionSlippage(b.b2, now);
    PartitionSlippage(b.b3, now);
  }

  lemma AssociateConserved(s: State, now: nat)
    requires Conserved(s)
    ensures Conserved(Step(s, Associate(now)))
  {
    EntriesAt(s.charged, ChargedOf(s.buffer, now), now);
    SlippageConcat(Entries(s.charged), ChargedOf(s.buffer, now));
    ChargedSlippage(s.buffer, now);
  }

  lemma {:induction false} EmptyUntilCreated(events: seq<Event>)
    ensures !Run(events).created ==> Run(events) == INITIAL
  {
    if events != [] {
      EmptyUntilCreated(events[..|events| - 1]);
    }
  }

  /** What every run of swaps and associations keeps, whatever their timestamps. */
  lemma {:induction false} RunIsValid(events: seq<Event>)
    ensures Valid(Run(events))
  {
    if events != [] {
      var s, last := Run(events[..|events| - 1]), events[|events| - 1];
      RunIsValid(events[..|events| - 1]);
      EmptyUntilCreated(events[..|events| - 1]);
      match last
      case Swap(time, id, slippage) =>
        SwapAges(s, time, id, slippage);
        SwapAccounted(s, time, id, slippage);
        SwapConserved(s, time, id, slippage);
      case Associate(now) =>
        AssociateAges(s, now);
        AssociateAccounted(s, now);
        AssociateConserved(s, now);
    }
  }

  /** Swap ids carry the transaction and the log: no two swaps share one. */
  ghost predicate DistinctSwaps(events: seq<Event>)
  {
    forall i, j | 0 <= i < j < |events| && events[i].Swap? && events[j].Swap? :: events[i].id != events[j].id
  }

  lemma {:induction false} AddedFrom(events: seq<Event>, e: Entry)
    requires e in Run(events).added
    ensures exists i :: 0 <= i < |events| && events[i].Swap? && events[i].id == e.id
  {
    var init, last := events[..|events| - 1], events[|events| - 1];
    if e in Run(init).added {
      AddedFrom(init, e);
      var i :| 0 <= i < |init| && init[i].Swap? && init[i].id == e.id;
      assert events[i].id == e.id;
    }
  }

  lemma {:induction false} AddedOnce(events: seq<Event>, e: Entry)
    requires DistinctSwaps(events) && e in Run(events).added
    ensures multiset(Run(events).added)[e] == 1
  {
    var init, last := events[..|events| - 1], events[|events| - 1];
    if e in Run(init).added {
      AddedOnce(init, e);
      AddedFrom(init, e);
    } else {
      assert multiset(Run(init).added)[e] == 0;
    }
  }

  /** Each swap is in one place only: still in a bucket, dropped, or charged, and never charged twice. */
  lemma NeverTwice(events: seq<Event>, e: Entry)
    requires DistinctSwaps(events) && e in Run(events).added
    ensures var s := Run(events);
            multiset(All(s.buffer))[e] + multiset(Entries(s.dropped))[e] + multiset(Entries(s.charged))[e] == 1
  {
    RunIsValid(events);
    AddedOnce(events, e);
  }

  /**
   Dropping is not expiring: the window is 1200 seconds and the buckets guarantee only 900, so a swap can
   fall out while a position could still be charged for it.
   */
  lemma DroppedBeforeItExpires()
    ensures var s := Run([Swap(299, 1, 5.0), Swap(300, 2, 0.0), Swap(600, 3, 0.0), Swap(900, 4, 0.0), Swap(1200, 5, 0.0)]);
            |s.dropped| == 1 && s.dropped[0].entry.id == 1 && s.dropped[0].at <= s.dropped[0].entry.expiresAt
  {
    var e1, e2, e3, e4 := Swap(299, 1, 5.0), Swap(300, 2, 0.0), Swap(600, 3, 0.0), Swap(900, 4, 0.0);
    var e5 := Swap(1200, 5, 0.0);
    var all := [e1, e2, e3, e4, e5];
    assert all[..4] == [e1, e2, e3, e4] && [e1, e2, e3, e4][..3] == [e1, e2, e3];
    assert [e1, e2, e3][..2] == [e1, e2] && [e1, e2][..1] == [e1] && [e1][..0] == [];
    assert Run([e1]).buffer.b0 == [NewEntry(299, 1, 5.0)];
    assert Run([e1, e2]).buffer.b1 == [NewEntry(299, 1, 5.0)];
    assert Run([e1, e2, e3]).buffer.b2 == [NewEntry(299, 1, 5.0)];
    assert Run([e1, e2, e3, e4]).buffer.b3 == [NewEntry(299, 1, 5.0)];
  }
}
