/**
 When the swap buffer loses a swap that could still be charged: exactly when the three following five
 minutes and, inside the swap's window, a fourth one bring swaps, and no association comes in between.
 */
module SwapWindow {
  import opened SwapBuffer

  function TimeOf(event: Event): (t: nat)
  {
    match event case Swap(time, _, _) => time case Associate(now) => now
  }

  /** Events come in the order of their blocks' timestamps. */
  ghost predicate InOrder(events: seq<Event>)
  {
    forall i, j | 0 <= i < j < |events| :: TimeOf(events[i]) <= TimeOf(events[j])
  }

  function EntryOf(event: Event): (e: Entry)
    requires event.Swap?
  {
    Entry(event.time, event.id, event.slippage, event.time + ASSOCIATION_WINDOW)
  }

  /** Some swap of the run falls in this five minutes. */
  ghost predicate HasSwapIn(events: seq<Event>, index: nat)
  {
    exists k :: 0 <= k < |events| && events[k].Swap? && BucketIndex(events[k].time) == index
  }

  // --- The run, event by event ------------------------------------------------------------------

  /** The n-th bucket. */
  function Bucket(b: Buffer, n: nat): (s: seq<Entry>)
  {
    if n == 0 then b.b0 else if n == 1 then b.b1 else if n == 2 then b.b2 else if n == 3 then b.b3 else []
  }

  lemma RunStep(events: seq<Event>, n: nat)
    requires n < |events|
    ensures Run(events[..n + 1]) == Step(Run(events[..n]), events[n])
  {
    assert events[..n + 1][..n] == events[..n];
  }

  lemma RemainingIn(s: seq<Entry>, now: nat, e: Entry)
    ensures e in Remaining(s, now) ==> e in s && !Chargeable(e, now)
  {
    if s != [] && e in Remaining(s, now) {
      RemainingIn(s[..|s| - 1], now, e);
    }
  }

  /** Where a swap in bucket m was before an association. */
  lemma BeforeAssociate(s: State, now: nat, e: Entry, m: nat)
    requires e in Bucket(Step(s, Associate(now)).buffer, m) && s.created
    ensures e in Bucket(s.buffer, m) && !Chargeable(e, now)
  {
    RemainingIn(Bucket(s.buffer, m), now, e);
  }

  /** Where a swap in bucket m was before another swap: a rotation away, if that swap is in a newer five minutes. */
  lemma BeforeSwap(s: State, time: nat, id: nat, slippage: real, e: Entry, m: nat)
    requires e in Bucket(Step(s, Swap(time, id, slippage)).buffer, m) && (s.created || s == INITIAL)
    ensures || (m == 0 && e == NewEntry(time, id, slippage))
            || (s.created && if BucketIndex(time) > s.buffer.index then m > 0 && e in Bucket(s.buffer, m - 1)
                             else e in Bucket(s.buffer, m))
  {
  }

  /** A swap in bucket m of a run, before the run's last event. */
  lemma BeforeLast(events: seq<Event>, e: Entry, m: nat)
    requires events != [] && e in Bucket(Run(events).buffer, m)
    ensures var s, last := Run(events[..|events| - 1]), events[|events| - 1];
            if last.Associate? then e in Bucket(s.buffer, m) && Run(events).buffer.index == s.buffer.index
            else || (m == 0 && e == EntryOf(last))
                 || (s.created && if BucketIndex(last.time) > s.buffer.index then m > 0 && e in Bucket(s.buffer, m - 1)
                                  else e in Bucket(s.buffer, m))
  {
    var s, last := Run(events[..|events| - 1]), events[|events| - 1];
    EmptyUntilCreated(events[..|events| - 1]);
    match last
    case Swap(time, id, slippage) => BeforeSwap(s, time, id, slippage, e, m);
    case Associate(now) =>
      if s.created {
        BeforeAssociate(s, now, e, m);
      }
  }

  lemma IndexStep(s: State, event: Event)
    ensures Step(s, event).created == (s.created || event.Swap?)
    ensures Step(s, event).buffer.index ==
              if event.Associate? || (s.created && BucketIndex(event.time) <= s.buffer.index) then s.buffer.index
              else BucketIndex(event.time)
  {
  }

  /** Once there was a swap the buffer exists, with an index that a swap has and that none exceeds. */
  lemma {:induction false} IndexIsLatest(events: seq<Event>)
    ensures var s := Run(events);
            && (s.created ==> HasSwapIn(events, s.buffer.index))
            && forall index: nat | HasSwapIn(events, index) :: s.created && index <= s.buffer.index
  {
    if events != [] {
      IndexIsLatest(events[..|events| - 1]);
      IndexStep(Run(events[..|events| - 1]), events[|events| - 1]);
      SwapsBefore(events);
    }
  }

  lemma SwapsBefore(events: seq<Event>)
    requires events != []
    ensures forall index :: HasSwapIn(events, index) <==>
              HasSwapIn(events[..|events| - 1], index)
              || (events[|events| - 1].Swap? && BucketIndex(events[|events| - 1].time) == index)
  {
    var init := events[..|events| - 1];
    forall index | HasSwapIn(init, index)
      ensures HasSwapIn(events, index)
    {
      var k :| 0 <= k < |init| && init[k].Swap? && BucketIndex(init[k].time) == index;
      assert events[k] == init[k];
    }
    forall index | HasSwapIn(events, index)
      ensures HasSwapIn(init, index) || (events[|events| - 1].Swap? && BucketIndex(events[|events| - 1].time) == index)
    {
      var k :| 0 <= k < |events| && events[k].Swap? && BucketIndex(events[k].time) == index;
      assert k < |init| ==> init[k] == events[k];
    }
  }

  /** In order, the index is that of the last swap. */
  lemma IndexIsNewest(events: seq<Event>)
    requires InOrder(events) && events != [] && events[|events| - 1].Swap?
    ensures Run(events).buffer.index == BucketIndex(events[|events| - 1].time)
  {
    IndexIsLatest(events);
    SwapsBefore(events);
    var k :| 0 <= k < |events| && events[k].Swap? && BucketIndex(events[k].time) == Run(events).buffer.index;
    assert TimeOf(events[k]) <= TimeOf(events[|events| - 1]);
  }

  // --- How far a swap has moved -----------------------------------------------------------------

  /** Every five minutes after `low` up to `high` brought a swap. */
  ghost predicate SwapsIn(events: seq<Event>, low: nat, high: nat)
  {
    forall index | low < index <= high :: HasSwapIn(events, index)
  }

  lemma RunAges(events: seq<Event>)
    ensures AgesValid(Run(events).buffer)
  {
    RunIsValid(events);
  }

  lemma IndexOfBucket(events: seq<Event>, e: Entry, m: nat)
    requires e in Bucket(Run(events).buffer, m)
    ensures m <= 3 && BucketIndex(e.time) + m <= Run(events).buffer.index && e.expiresAt == e.time + ASSOCIATION_WINDOW
  {
    RunAges(events);
  }

  /** A swap that is in bucket m when the index has grown by m saw a swap in each of those five minutes. */
  lemma {:induction false} MovedByEach(events: seq<Event>, e: Entry, m: nat)
    requires e in Bucket(Run(events).buffer, m) && Run(events).buffer.index == BucketIndex(e.time) + m
    ensures SwapsIn(events, BucketIndex(e.time), BucketIndex(e.time) + m)
  {
    if events != [] && m > 0 {
      var init, last := events[..|events| - 1], events[|events| - 1];
      BeforeLast(events, e, m);
      IndexStep(Run(init), last);
      SwapsBefore(events);
      if last.Swap? && BucketIndex(last.time) > Run(init).buffer.index {
        IndexOfBucket(init, e, m - 1);
        MovedByEach(init, e, m - 1);
      } else {
        MovedByEach(init, e, m);
      }
    }
  }

  lemma InOrderPrefix(events: seq<Event>, n: nat)
    requires n <= |events| && InOrder(events)
    ensures InOrder(events[..n])
  {
  }

  /** The last event is not the only one to bring a swap in any of those five minutes. */
  lemma SwapsInBefore(events: seq<Event>, low: nat, high: nat)
    requires events != [] && SwapsIn(events, low, high)
    requires var init, last := events[..|events| - 1], events[|events| - 1];
             last.Associate? || BucketIndex(last.time) > high || HasSwapIn(init, BucketIndex(last.time))
    ensures SwapsIn(events[..|events| - 1], low, high)
  {
    var init, last := events[..|events| - 1], events[|events| - 1];
    SwapsBefore(events);
    forall index: nat | low < index <= high
      ensures HasSwapIn(init, index)
    {
      assert HasSwapIn(events, index);
    }
  }

  /** In the last event's five minutes or before, with the swap now in bucket m and in bucket m - 1 before a rotation. */
  lemma RotatedOnce(events: seq<Event>, low: nat, high: nat)
    requires InOrder(events) && events != [] && SwapsIn(events, low, high) && low < high
    requires var init, last := events[..|events| - 1], events[|events| - 1];
             last.Swap? && BucketIndex(last.time) > Run(init).buffer.index
    ensures var next := if BucketIndex(events[|events| - 1].time) == high then high - 1 else high;
            SwapsIn(events[..|events| - 1], low, next)
  {
    IndexIsNewest(events);
    IndexIsLatest(events);
    assert HasSwapIn(events, high);
    var last := events[|events| - 1];
    var next := if BucketIndex(last.time) == high then high - 1 else high;
    assert SwapsIn(events, low, next);
    SwapsInBefore(events, low, next);
  }

  lemma NotRotated(events: seq<Event>, low: nat, high: nat)
    requires InOrder(events) && events != [] && SwapsIn(events, low, high)
    requires var s, last := Run(events[..|events| - 1]), events[|events| - 1];
             last.Associate? || (s.created && BucketIndex(last.time) <= s.buffer.index)
    ensures SwapsIn(events[..|events| - 1], low, high)
  {
    var init, last := events[..|events| - 1], events[|events| - 1];
    if last.Swap? {
      IndexIsNewest(events);
      IndexStep(Run(init), last);
      IndexIsLatest(init);
    }
    SwapsInBefore(events, low, high);
  }

  /** A swap still in the buckets was moved by each five minutes that brought a swap after its own. */
  lemma {:induction false} MovedAtLeast(events: seq<Event>, e: Entry, m: nat, high: nat)
    requires InOrder(events) && e in Bucket(Run(events).buffer, m)
    requires SwapsIn(events, BucketIndex(e.time), high)
    ensures high <= BucketIndex(e.time) + m
  {
    if events != [] && high > BucketIndex(e.time) {
      var init, last := events[..|events| - 1], events[|events| - 1];
      BeforeLast(events, e, m);
      InOrderPrefix(events, |events| - 1);
      if last.Swap? && m == 0 && e == EntryOf(last) {
        NewestHasNoneLater(events, high);
      } else if last.Swap? && BucketIndex(last.time) > Run(init).buffer.index {
        RotatedOnce(events, BucketIndex(e.time), high);
        MovedAtLeast(init, e, m - 1, if BucketIndex(last.time) == high then high - 1 else high);
      } else {
        NotRotated(events, BucketIndex(e.time), high);
        MovedAtLeast(init, e, m, high);
      }
    }
  }

  lemma NewestHasNoneLater(events: seq<Event>, index: nat)
    requires InOrder(events) && events != [] && events[|events| - 1].Swap?
    ensures HasSwapIn(events, index) ==> index <= BucketIndex(events[|events| - 1].time)
  {
    IndexIsNewest(events);
    IndexIsLatest(events);
  }

  // --- Where a swap came from and where it went -------------------------------------------------

  lemma AddedAfter(events: seq<Event>, i: nat, n: nat)
    requires DistinctSwaps(events) && i < |events| && events[i].Swap? && n <= |events|
    requires EntryOf(events[i]) in Run(events[..n]).added
    ensures i < n
  {
    AddedFrom(events[..n], EntryOf(events[i]));
    var k :| 0 <= k < n && events[..n][k].Swap? && events[..n][k].id == events[i].id;
    assert events[k] == events[..n][k];
  }

  lemma InBucketIsAdded(events: seq<Event>, e: Entry, m: nat)
    requires e in Bucket(Run(events).buffer, m)
    ensures e in Run(events).added
  {
    RunIsValid(events);
    var s := Run(events);
    assert e in All(s.buffer);
    assert e in multiset(s.added);
  }

  lemma AddedStep(s: State, event: Event)
    ensures Step(s, event).added == s.added + if event.Swap? then [EntryOf(event)] else []
  {
  }

  lemma {:induction false} StaysAdded(events: seq<Event>, i: nat, n: nat)
    requires i < n <= |events| && events[i].Swap?
    ensures EntryOf(events[i]) in Run(events[..n]).added
    decreases n
  {
    RunStep(events, n - 1);
    AddedStep(Run(events[..n - 1]), events[n - 1]);
    if i < n - 1 {
      StaysAdded(events, i, n - 1);
    }
  }

  /** Nothing that is gone comes back. */
  ghost predicate Grows(s: State, n: State)
  {
    s.dropped <= n.dropped && s.charged <= n.charged
  }

  lemma GrowsStep(s: State, event: Event)
    ensures Grows(s, Step(s, event))
  {
  }

  lemma GrowsOn(s: State, m: State, n: State)
    requires Grows(s, m) && Grows(m, n)
    ensures Grows(s, n)
  {
  }

  lemma {:induction false} RunGrows(events: seq<Event>, n: nat, m: nat)
    requires n <= m <= |events|
    ensures Grows(Run(events[..n]), Run(events[..m]))
    decreases m
  {
    if n < m {
      RunGrows(events, n, m - 1);
      RunStep(events, m - 1);
      GrowsStep(Run(events[..m - 1]), events[m - 1]);
      GrowsOn(Run(events[..n]), Run(events[..m - 1]), Run(events[..m]));
    }
  }

  lemma StaysGone(s: State, n: State, g: Gone)
    requires Grows(s, n)
    ensures g in s.dropped ==> g in n.dropped
    ensures g in s.charged ==> g in n.charged
  {
  }

  /** A swap in a bucket was in a bucket before the event, unless the event is that swap. */
  lemma WasBefore(events: seq<Event>, n: nat, e: Entry, m: nat) returns (was: nat)
    requires n < |events| && e in Bucket(Run(events[..n + 1]).buffer, m)
    requires events[n].Swap? ==> e != EntryOf(events[n])
    ensures e in Bucket(Run(events[..n]).buffer, was)
  {
    var prefix := events[..n + 1];
    assert prefix[..n] == events[..n] && prefix[n] == events[n];
    BeforeLast(prefix, e, m);
    was := if events[n].Swap? && BucketIndex(events[n].time) > Run(events[..n]).buffer.index then m - 1 else m;
  }

  /** A swap in a bucket was in a bucket at every moment since it was added. */
  lemma {:induction false} WasInBucket(events: seq<Event>, i: nat, k: nat, n: nat, m: nat) returns (was: nat)
    requires DistinctSwaps(events) && i < k <= n <= |events| && events[i].Swap?
    requires EntryOf(events[i]) in Bucket(Run(events[..n]).buffer, m)
    ensures EntryOf(events[i]) in Bucket(Run(events[..k]).buffer, was)
    decreases n
  {
    was := m;
    if k < n {
      was := WasBefore(events, n - 1, EntryOf(events[i]), m);
      was := WasInBucket(events, i, k, n - 1, was);
    }
  }

  lemma InOrderAt(events: seq<Event>, i: nat, j: nat)
    requires InOrder(events) && i < |events| && j < |events|
    ensures TimeOf(events[i]) > TimeOf(events[j]) ==> i > j
    ensures i <= j ==> TimeOf(events[i]) <= TimeOf(events[j])
  {
  }

  /** An association leaves no swap in a bucket that it could charge. */
  lemma AssociationTakesAll(events: seq<Event>, k: nat, e: Entry, m: nat)
    requires k < |events| && events[k].Associate? && e in Bucket(Run(events[..k + 1]).buffer, m)
    ensures !Chargeable(e, events[k].now)
  {
    RunStep(events, k);
    EmptyUntilCreated(events[..k]);
    var s := Run(events[..k]);
    if s.created {
      BeforeAssociate(s, events[k].now, e, m);
    }
  }

  /** After an association inside its window a swap is in no bucket. */
  lemma GoneOnceAssociated(events: seq<Event>, i: nat, k: nat, n: nat, m: nat)
    requires InOrder(events) && DistinctSwaps(events) && i < k < n <= |events|
    requires events[i].Swap? && events[k].Associate?
    ensures EntryOf(events[i]) in Bucket(Run(events[..n]).buffer, m) ==> events[k].now > events[i].time + ASSOCIATION_WINDOW
  {
    if EntryOf(events[i]) in Bucket(Run(events[..n]).buffer, m) {
      var was := WasInBucket(events, i, k + 1, n, m);
      AssociationTakesAll(events, k, EntryOf(events[i]), was);
    }
  }

  lemma DropStep(s: State, event: Event, g: Gone)
    requires g in Step(s, event).dropped && g !in s.dropped && (s.created || s == INITIAL)
    ensures event.Swap? && g.at == event.time && g.entry in Bucket(s.buffer, 3) && BucketIndex(g.at) > s.buffer.index
  {
  }

  /** A dropped swap was in the last bucket when a swap of a newer five minutes came. */
  lemma {:induction false} DroppedBy(events: seq<Event>, g: Gone, n: nat) returns (j: nat)
    requires n <= |events| && g in Run(events[..n]).dropped
    ensures j < n && events[j].Swap? && g.at == events[j].time
    ensures g.entry in Bucket(Run(events[..j]).buffer, 3) && BucketIndex(g.at) > Run(events[..j]).buffer.index
    decreases n
  {
    RunStep(events, n - 1);
    if g in Run(events[..n - 1]).dropped {
      j := DroppedBy(events, g, n - 1);
    } else {
      j := n - 1;
      EmptyUntilCreated(events[..j]);
      DropStep(Run(events[..j]), events[j], g);
    }
  }

  /** A charged swap was in a bucket when an association came. */
  lemma {:induction false} ChargedBy(events: seq<Event>, g: Gone, n: nat) returns (k: nat)
    requires n <= |events| && g in Run(events[..n]).charged
    ensures k < n && events[k].Associate? && g.at == events[k].now && g.entry in Run(events[..k]).added
    decreases n
  {
    RunStep(events, n - 1);
    if g in Run(events[..n - 1]).charged {
      k := ChargedBy(events, g, n - 1);
    } else {
      k := n - 1;
      ChargedIsIn(Run(events[..k]).buffer, events[k].now, g.entry);
      RunIsValid(events[..k]);
      assert g.entry in multiset(Run(events[..k]).added);
    }
  }

  lemma ChargedIsIn(b: Buffer, now: nat, e: Entry)
    ensures e in ChargedOf(b, now) ==> e in All(b)
  {
    PartitionIn(b.b0, now);
    PartitionIn(b.b1, now);
    PartitionIn(b.b2, now);
    PartitionIn(b.b3, now);
  }

  // --- When a swap loses its window -------------------------------------------------------------

  /** Event j is a swap four five-minutes after swap i and inside its window, with no association between. */
  ghost predicate FourthComesFirst(events: seq<Event>, i: nat, j: nat)
    requires i < |events| && events[i].Swap?
  {
    && i < j < |events| && events[j].Swap?
    && BucketIndex(events[j].time) == BucketIndex(events[i].time) + 4
    && events[j].time <= events[i].time + ASSOCIATION_WINDOW
    && forall k | i < k < j :: events[k].Swap?
  }

  /** Each of the three five-minutes after swap i brings a swap, and the fourth does so inside its window. */
  ghost predicate LosesWindow(events: seq<Event>, i: nat)
    requires i < |events| && events[i].Swap?
  {
    && SwapsIn(events, BucketIndex(events[i].time), BucketIndex(events[i].time) + 3)
    && exists j :: FourthComesFirst(events, i, j)
  }

  /** The run drops swap i although a position could still be charged for it. */
  ghost predicate DroppedEarly(events: seq<Event>, i: nat)
    requires i < |events| && events[i].Swap?
  {
    exists g :: g in Run(events).dropped && g.entry == EntryOf(events[i]) && g.at <= g.entry.expiresAt
  }

  lemma SwapsInPrefix(events: seq<Event>, low: nat, high: nat, n: nat)
    requires n <= |events| && SwapsIn(events[..n], low, high)
    ensures SwapsIn(events, low, high)
  {
    forall index: nat | low < index <= high
      ensures HasSwapIn(events, index)
    {
      assert HasSwapIn(events[..n], index);
      var k :| 0 <= k < n && events[..n][k].Swap? && BucketIndex(events[..n][k].time) == index;
      assert events[k] == events[..n][k];
    }
  }

  /** Swaps of older five minutes come before event j. */
  lemma SwapsInUpTo(events: seq<Event>, low: nat, high: nat, j: nat)
    requires InOrder(events) && j < |events| && events[j].Swap? && BucketIndex(events[j].time) == high + 1
    requires SwapsIn(events, low, high)
    ensures SwapsIn(events[..j + 1], low, high + 1)
  {
    var prefix := events[..j + 1];
    forall index: nat | low < index <= high + 1
      ensures HasSwapIn(prefix, index)
    {
      if index == high + 1 {
        assert prefix[j] == events[j];
      } else {
        assert HasSwapIn(events, index);
        var k :| 0 <= k < |events| && events[k].Swap? && BucketIndex(events[k].time) == index;
        InOrderAt(events, j, k);
        assert prefix[k] == events[k];
      }
    }
  }

  lemma DroppedEarlyNeeds(events: seq<Event>, i: nat, g: Gone)
    requires InOrder(events) && DistinctSwaps(events) && i < |events| && events[i].Swap?
    requires g in Run(events).dropped && g.entry == EntryOf(events[i]) && g.at <= g.entry.expiresAt
    ensures LosesWindow(events, i)
  {
    assert events[..|events|] == events;
    var j := DroppedBy(events, g, |events|);
    var prefix := events[..j];
    IndexOfBucket(prefix, g.entry, 3);
    MovedByEach(prefix, g.entry, 3);
    SwapsInPrefix(events, BucketIndex(events[i].time), BucketIndex(events[i].time) + 3, j);
    InBucketIsAdded(prefix, g.entry, 3);
    AddedAfter(events, i, j);
    forall k | i < k < j
      ensures events[k].Swap?
    {
      InOrderAt(events, k, j);
      if events[k].Associate? {
        GoneOnceAssociated(events, i, k, j, 3);
        assert false;
      }
    }
    assert FourthComesFirst(events, i, j);
  }

  lemma NoAssociationBetween(events: seq<Event>, i: nat, j: nat, k: nat)
    requires i < |events| && events[i].Swap? && FourthComesFirst(events, i, j) && k <= j && events[k].Associate?
    ensures k <= i
  {
  }

  /** A swap that is charged had an association after it. */
  lemma ChargedAfter(events: seq<Event>, i: nat, n: nat, g: Gone) returns (k: nat)
    requires DistinctSwaps(events) && i < |events| && events[i].Swap? && n <= |events|
    requires g in Run(events[..n]).charged && g.entry == EntryOf(events[i])
    ensures i < k < n && events[k].Associate? && g.at == events[k].now
  {
    k := ChargedBy(events, g, n);
    AddedAfter(events, i, k);
  }

  lemma NotCharged(events: seq<Event>, i: nat, j: nat)
    requires DistinctSwaps(events) && i < |events| && events[i].Swap? && FourthComesFirst(events, i, j)
    ensures EntryOf(events[i]) !in Entries(Run(events[..j + 1]).charged)
  {
    var charged := Run(events[..j + 1]).charged;
    forall x | 0 <= x < |charged|
      ensures Entries(charged)[x] != EntryOf(events[i])
    {
      if charged[x].entry == EntryOf(events[i]) {
        var k := ChargedAfter(events, i, j + 1, charged[x]);
        NoAssociationBetween(events, i, j, k);
        assert false;
      }
    }
  }

  lemma NotInBucket(events: seq<Event>, i: nat, j: nat, m: nat)
    requires InOrder(events) && i < |events| && events[i].Swap? && FourthComesFirst(events, i, j)
    requires SwapsIn(events, BucketIndex(events[i].time), BucketIndex(events[i].time) + 3)
    ensures EntryOf(events[i]) !in Bucket(Run(events[..j + 1]).buffer, m)
  {
    var index := BucketIndex(events[i].time);
    InOrderPrefix(events, j + 1);
    SwapsInUpTo(events, index, index + 3, j);
    if EntryOf(events[i]) in Bucket(Run(events[..j + 1]).buffer, m) {
      MovedAtLeast(events[..j + 1], EntryOf(events[i]), m, index + 4);
      assert false;
    }
  }

  lemma OnlyDropped(s: State, e: Entry) returns (g: Gone)
    requires multiset(All(s.buffer))[e] + multiset(Entries(s.dropped))[e] + multiset(Entries(s.charged))[e] == 1
    requires e !in Bucket(s.buffer, 0) && e !in Bucket(s.buffer, 1) && e !in Bucket(s.buffer, 2) && e !in Bucket(s.buffer, 3)
    requires e !in Entries(s.charged)
    ensures g in s.dropped && g.entry == e
  {
    assert e !in All(s.buffer);
    assert e in Entries(s.dropped);
    var x :| 0 <= x < |s.dropped| && Entries(s.dropped)[x] == e;
    g := s.dropped[x];
  }

  /** Swap i is neither in a bucket nor charged once event j has come, so it is dropped. */
  lemma IsDroppedBy(events: seq<Event>, i: nat, j: nat) returns (g: Gone)
    requires InOrder(events) && DistinctSwaps(events) && i < |events| && events[i].Swap?
    requires SwapsIn(events, BucketIndex(events[i].time), BucketIndex(events[i].time) + 3)
    requires FourthComesFirst(events, i, j)
    ensures g in Run(events[..j + 1]).dropped && g.entry == EntryOf(events[i])
  {
    var e := EntryOf(events[i]);
    StaysAdded(events, i, j + 1);
    NeverTwice(events[..j + 1], e);
    NotCharged(events, i, j);
    NotInBucket(events, i, j, 0);
    NotInBucket(events, i, j, 1);
    NotInBucket(events, i, j, 2);
    NotInBucket(events, i, j, 3);
    g := OnlyDropped(Run(events[..j + 1]), e);
  }

  lemma LosesWindowSuffices(events: seq<Event>, i: nat, j: nat)
    requires InOrder(events) && DistinctSwaps(events) && i < |events| && events[i].Swap?
    requires SwapsIn(events, BucketIndex(events[i].time), BucketIndex(events[i].time) + 3)
    requires FourthComesFirst(events, i, j)
    ensures DroppedEarly(events, i)
  {
    var g := IsDroppedBy(events, i, j);
    var cause := DroppedBy(events, g, j + 1);
    InOrderAt(events, cause, j);
    assert events[..|events|] == events;
    RunGrows(events, j + 1, |events|);
    StaysGone(Run(events[..j + 1]), Run(events), g);
  }

  /**
   Exactly when the buffer loses a swap that could still be charged: each of the three five-minutes after
   its own brings a swap, the fourth brings one inside the swap's window, and no association comes between.
   */
  lemma DroppedEarlyIff(events: seq<Event>, i: nat)
    requires InOrder(events) && DistinctSwaps(events) && i < |events| && events[i].Swap?
    ensures DroppedEarly(events, i) <==> LosesWindow(events, i)
  {
    if DroppedEarly(events, i) {
      var g :| g in Run(events).dropped && g.entry == EntryOf(events[i]) && g.at <= g.entry.expiresAt;
      DroppedEarlyNeeds(events, i, g);
    }
    if LosesWindow(events, i) {
      var j :| FourthComesFirst(events, i, j);
      LosesWindowSuffices(events, i, j);
    }
  }

  // --- When a swap is charged -------------------------------------------------------------------

  /** The swaps of a run. */
  function SwapsOf(events: seq<Event>): (s: seq<Entry>)
  {
    if events == [] then []
    else
      var last := events[|events| - 1];
      SwapsOf(events[..|events| - 1]) + if last.Swap? then [EntryOf(last)] else []
  }

  /** What is filed are the run's swaps, with their slippage, open for the window. */
  lemma {:induction false} AddedAreSwaps(events: seq<Event>)
    ensures Run(events).added == SwapsOf(events)
  {
    if events != [] {
      var init, last := events[..|events| - 1], events[|events| - 1];
      AddedAreSwaps(init);
      AddedStep(Run(init), last);
    }
  }

  /** The total is the slippage of all the run's swaps. */
  lemma TotalIsSlippage(events: seq<Event>)
    ensures Run(events).buffer.total == Slippage(SwapsOf(events))
  {
    RunIsValid(events);
    AddedAreSwaps(events);
  }

  /** An association comes within the swap's window. */
  ghost predicate AssociatedInTime(events: seq<Event>, i: nat, k: nat)
    requires i < |events| && events[i].Swap?
  {
    i < k < |events| && events[k].Associate? && events[k].now <= events[i].time + ASSOCIATION_WINDOW
  }

  ghost predicate IsCharged(events: seq<Event>, i: nat)
    requires i < |events| && events[i].Swap?
  {
    exists g :: g in Run(events).charged && g.entry == EntryOf(events[i])
  }

  lemma ChargedIsNotDropped(events: seq<Event>, i: nat, g: Gone)
    requires InOrder(events) && DistinctSwaps(events) && i < |events| && events[i].Swap?
    requires g in Run(events).charged && g.entry == EntryOf(events[i])
    ensures !LosesWindow(events, i)
  {
    DroppedEarlyIff(events, i);
    var s, e := Run(events), EntryOf(events[i]);
    StaysAdded(events, i, |events|);
    assert events[..|events|] == events;
    NeverTwice(events, e);
    var x :| 0 <= x < |s.charged| && s.charged[x] == g;
    assert Entries(s.charged)[x] == e;
    assert e in multiset(Entries(s.charged));
    forall d | d in s.dropped
      ensures d.entry != e
    {
      var y :| 0 <= y < |s.dropped| && s.dropped[y] == d;
      assert Entries(s.dropped)[y] == d.entry;
      assert d.entry in multiset(Entries(s.dropped));
    }
  }

  lemma ChargedNeeds(events: seq<Event>, i: nat, g: Gone) returns (k: nat)
    requires InOrder(events) && DistinctSwaps(events) && i < |events| && events[i].Swap?
    requires g in Run(events).charged && g.entry == EntryOf(events[i])
    ensures AssociatedInTime(events, i, k)
  {
    assert events[..|events|] == events;
    k := ChargedAfter(events, i, |events|, g);
    RunIsValid(events);
  }

  lemma OnlyCharged(s: State, e: Entry) returns (g: Gone)
    requires multiset(All(s.buffer))[e] + multiset(Entries(s.dropped))[e] + multiset(Entries(s.charged))[e] == 1
    requires e !in Bucket(s.buffer, 0) && e !in Bucket(s.buffer, 1) && e !in Bucket(s.buffer, 2) && e !in Bucket(s.buffer, 3)
    requires forall d | d in s.dropped :: d.entry != e
    ensures g in s.charged && g.entry == e
  {
    assert e !in All(s.buffer);
    assert e !in Entries(s.dropped);
    assert e in Entries(s.charged);
    var x :| 0 <= x < |s.charged| && Entries(s.charged)[x] == e;
    g := s.charged[x];
  }

  /** A swap dropped before an association in its window is dropped early. */
  lemma NotDroppedBefore(events: seq<Event>, i: nat, k: nat, d: Gone)
    requires InOrder(events) && DistinctSwaps(events) && i < |events| && events[i].Swap?
    requires AssociatedInTime(events, i, k) && !LosesWindow(events, i) && d in Run(events[..k + 1]).dropped
    ensures d.entry != EntryOf(events[i])
  {
    var j := DroppedBy(events, d, k + 1);
    InOrderAt(events, j, k);
    assert events[..|events|] == events;
    RunGrows(events, k + 1, |events|);
    StaysGone(Run(events[..k + 1]), Run(events), d);
    DroppedEarlyIff(events, i);
  }

  lemma ChargedOnce(events: seq<Event>, i: nat, k: nat)
    requires InOrder(events) && DistinctSwaps(events) && i < |events| && events[i].Swap?
    requires AssociatedInTime(events, i, k) && !LosesWindow(events, i)
    ensures IsCharged(events, i)
  {
    var s, e := Run(events[..k + 1]), EntryOf(events[i]);
    StaysAdded(events, i, k + 1);
    NeverTwice(events[..k + 1], e);
    forall m | 0 <= m <= 3
      ensures e !in Bucket(s.buffer, m)
    {
      if e in Bucket(s.buffer, m) {
        AssociationTakesAll(events, k, e, m);
      }
    }
    forall d | d in s.dropped
      ensures d.entry != e
    {
      NotDroppedBefore(events, i, k, d);
    }
    var g := OnlyCharged(s, e);
    assert events[..|events|] == events;
    RunGrows(events, k + 1, |events|);
    StaysGone(s, Run(events), g);
  }

  /**
   Exactly which swaps are charged: those with an association inside their window, but for those the
   buffer loses before it.
   */
  lemma ChargedIff(events: seq<Event>, i: nat)
    requires InOrder(events) && DistinctSwaps(events) && i < |events| && events[i].Swap?
    ensures IsCharged(events, i) <==> !LosesWindow(events, i) && exists k :: AssociatedInTime(events, i, k)
  {
    if IsCharged(events, i) {
      var g :| g in Run(events).charged && g.entry == EntryOf(events[i]);
      ChargedIsNotDropped(events, i, g);
      var k := ChargedNeeds(events, i, g);
    }
    if !LosesWindow(events, i) && exists k :: AssociatedInTime(events, i, k) {
      var k :| AssociatedInTime(events, i, k);
      ChargedOnce(events, i, k);
    }
  }
}
