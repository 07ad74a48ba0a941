/**
 The read-through cache of squids/_shared/src/entityCache.ts: get, set and flush over the store, and
 its agreement with the plain map of values it speeds up.
 */
module SharedCache {
  import opened Wrappers
  import opened FkStore
  import opened SharedFlushOrder

  // --- What the store returns -------------------------------------------------------------------

  /** A stored column: one never written is null. */
  function StoredLink(r: Row, p: Column): (l: Link)
    ensures l != NotLoaded
  {
    if LinkOf(r, p) == NotLoaded then Null else LinkOf(r, p)
  }

  /** A row read with some relations; the others are not loaded. Without relations it is a plain get. */
  function Loaded(r: Row, relations: set<Column>): (l: Row)
  {
    Row((map p | p in relations :: StoredLink(r, p)), r.data)
  }

  /** An entity that shows nothing but what is stored, though perhaps not every link. */
  ghost predicate Shows(v: Row, stored: Row)
  {
    v.data == stored.data && forall p | LinkOf(v, p) != NotLoaded :: LinkOf(v, p) == StoredLink(stored, p)
  }

  predicate HasRelations(v: Row, relations: set<Column>)
  {
    forall p | p in relations :: LinkOf(v, p) != NotLoaded
  }

  // --- The cache --------------------------------------------------------------------------------

  /** One batch's cache over the store's rows. A cached None is a row known not to be stored. */
  datatype State = State(cache: map<Key, Option<Row>>, dirty: Rows, rows: Rows)

  ghost predicate Valid(s: State)
  {
    && (forall k | k in s.dirty :: k in s.cache && s.cache[k] == Some(s.dirty[k]))
    && (forall k | k in s.cache && k !in s.dirty :: CleanHit(s.rows, k, s.cache[k]))
  }

  ghost predicate CleanHit(rows: Rows, k: Key, hit: Option<Row>)
  {
    if hit.Some? then k in rows && Shows(hit.value, rows[k]) else k !in rows
  }

  /** A hit is trusted when it holds every relation asked for. */
  predicate Trusted(s: State, k: Key, relations: set<Column>)
  {
    k in s.cache && (s.cache[k].None? || HasRelations(s.cache[k].value, relations))
  }

  function FromDb(s: State, k: Key, relations: set<Column>): (r: Option<Row>)
  {
    if k in s.rows then Some(Loaded(s.rows[k], relations)) else None
  }

  function Got(s: State, k: Key, relations: set<Column>): (r: Option<Row>)
  {
    if Trusted(s, k, relations) then s.cache[k]
    else if k in s.dirty then Some(s.dirty[k])
    else FromDb(s, k, relations)
  }

  function AfterGet(s: State, k: Key, relations: set<Column>): (n: State)
  {
    if Trusted(s, k, relations) || k in s.dirty then s
    else s.(cache := s.cache[k := FromDb(s, k, relations)])
  }

  function AfterSet(s: State, k: Key, v: Row): (n: State)
  {
    s.(cache := s.cache[k := Some(v)], dirty := s.dirty[k := v])
  }

  /** Buckets of classes the order does not list stay dirty. */
  function AfterFlush(s: State, order: seq<Class>): (n: State)
  {
    var written := Of(s.dirty, order);
    s.(dirty := s.dirty - written.Keys, rows := Written(s.rows, written))
  }

  // --- Agreement with a plain map ---------------------------------------------------------------

  /** The same batch without a cache: the store, and the values set since the last flush. */
  datatype Plain = Plain(rows: Rows, dirty: Rows)

  /** What a get may return: the value set in this batch, or what is stored, with the relations. */
  ghost predicate Serves(r: Option<Row>, p: Plain, k: Key, relations: set<Column>)
  {
    if k in p.dirty then r == Some(p.dirty[k])
    else if k in p.rows then r.Some? && Shows(r.value, p.rows[k]) && HasRelations(r.value, relations)
    else r == None
  }

  lemma GetServes(s: State, k: Key, relations: set<Column>)
    requires Valid(s)
    ensures Serves(Got(s, k, relations), Plain(s.rows, s.dirty), k, relations) && Valid(AfterGet(s, k, relations))
  {
  }

  lemma SetKeepsValid(s: State, k: Key, v: Row)
    requires Valid(s)
    ensures Valid(AfterSet(s, k, v))
  {
  }

  lemma FlushKeepsValid(s: State, order: seq<Class>)
    requires Valid(s)
    ensures Valid(AfterFlush(s, order))
  {
    var written, n := Of(s.dirty, order), AfterFlush(s, order);
    forall k | k in n.cache && k !in n.dirty
      ensures CleanHit(n.rows, k, n.cache[k])
    {
      if k in s.dirty {
        WrittenRow(s.rows, written, k);
      }
    }
  }

  datatype Op = Get(k: Key, relations: set<Column>) | Set(k: Key, v: Row) | Flush

  function Step(s: State, op: Op, order: seq<Class>): (n: State)
  {
    match op
    case Get(k, relations) => AfterGet(s, k, relations)
    case Set(k, v) => AfterSet(s, k, v)
    case Flush => AfterFlush(s, order)
  }

  function PlainStep(p: Plain, op: Op, order: seq<Class>): (n: Plain)
  {
    match op
    case Get(_, _) => p
    case Set(k, v) => p.(dirty := p.dirty[k := v])
    case Flush => Plain(Written(p.rows, Of(p.dirty, order)), p.dirty - Of(p.dirty, order).Keys)
  }

  function Run(s: State, ops: seq<Op>, order: seq<Class>): (n: State)
  {
    if ops == [] then s else Step(Run(s, ops[..|ops| - 1], order), ops[|ops| - 1], order)
  }

  function PlainRun(p: Plain, ops: seq<Op>, order: seq<Class>): (n: Plain)
  {
    if ops == [] then p else PlainStep(PlainRun(p, ops[..|ops| - 1], order), ops[|ops| - 1], order)
  }

  /** After any gets, sets and flushes, a get returns what it would without the cache. */
  lemma {:induction false} ReadThrough(s: State, ops: seq<Op>, order: seq<Class>, k: Key, relations: set<Column>)
    requires Valid(s)
    ensures var n := Run(s, ops, order);
            && Valid(n) && Plain(n.rows, n.dirty) == PlainRun(Plain(s.rows, s.dirty), ops, order)
            && Serves(Got(n, k, relations), Plain(n.rows, n.dirty), k, relations)
  {
    if ops != [] {
      var before := Run(s, ops[..|ops| - 1], order);
      ReadThrough(s, ops[..|ops| - 1], order, k, relations);
      match ops[|ops| - 1]
      case Get(k', relations') => GetServes(before, k', relations');
      case Set(k', v) => SetKeepsValid(before, k', v);
      case Flush => FlushKeepsValid(before, order);
    }
    GetServes(Run(s, ops, order), k, relations);
  }

  /** In particular a set is read back until the row is set again or the batch is flushed. */
  lemma {:induction false} SetIsReadBack(s: State, k: Key, v: Row, later: seq<Op>, order: seq<Class>, relations: set<Column>)
    requires Valid(s) && forall op | op in later :: op.Get? || (op.Set? && op.k != k)
    ensures Got(Run(AfterSet(s, k, v), later, order), k, relations) == Some(v)
  {
    SetKeepsValid(s, k, v);
    PendingStays(Plain(s.rows, s.dirty[k := v]), k, v, later, order);
    ReadThrough(AfterSet(s, k, v), later, order, k, relations);
  }

  lemma {:induction false} PendingStays(p: Plain, k: Key, v: Row, later: seq<Op>, order: seq<Class>)
    requires k in p.dirty && p.dirty[k] == v && forall op | op in later :: op.Get? || (op.Set? && op.k != k)
    ensures var n := PlainRun(p, later, order); k in n.dirty && n.dirty[k] == v
  {
    if later != [] {
      PendingStays(p, k, v, later[..|later| - 1], order);
      assert later[|later| - 1] in later;
    }
  }

  /** Saving a row again after reading it with any relations, its data changed, erases no stored link. */
  lemma ResaveKeepsLinks(s: State, order: seq<Class>, k: Key, relations: set<Column>, data: nat, p: Column)
    requires Valid(s) && k in s.rows && k !in s.dirty && k.0 in order
    ensures Got(s, k, relations).Some?
    ensures var n := AfterFlush(AfterSet(s, k, Got(s, k, relations).value.(data := data)), order);
            k in n.rows && n.rows[k].data == data && StoredLink(n.rows[k], p) == StoredLink(s.rows[k], p)
  {
    GetServes(s, k, relations);
    var v := Got(s, k, relations).value.(data := data);
    var batch := Of(AfterSet(s, k, v).dirty, order);
    WrittenRow(s.rows, batch, k);
    if LinkOf(v, p) != NotLoaded {
      assert LinkOf(v, p) == LinkOf(Got(s, k, relations).value, p);
    } else if LinkOf(s.rows[k], p) == NotLoaded {
      assert LinkOf(Written(s.rows, batch)[k], p) != NotLoaded ==> LinkOf(Written(s.rows, batch)[k], p) == Null;
    }
  }

  // --- The class --------------------------------------------------------------------------------

  class EntityCache {
    var cache: map<Key, Option<Row>>
    var dirty: Rows
    const store: Store
    const flushOrder: seq<Class>

    constructor (store: Store, flushOrder: seq<Class>)
      ensures this.store == store && this.flushOrder == flushOrder
      ensures View() == State(map[], map[], store.rows) && Valid(View())
    {
      this.store, this.flushOrder := store, flushOrder;
      cache, dirty := map[], map[];
    }

    function View(): (s: State)
      reads this, store
    {
      State(cache, dirty, store.rows)
    }

    method Get(k: Key, relations: set<Column>) returns (r: Option<Row>)
      modifies this
      ensures r == Got(old(View()), k, relations) && View() == AfterGet(old(View()), k, relations)
    {
      if k in cache {
        var hit := cache[k];
        if hit.None? || HasRelations(hit.value, relations) {
          return hit;
        }
      }
      var fromDb := if k in store.rows then Some(Loaded(store.rows[k], relations)) else None;
      if k in dirty {
        return Some(dirty[k]);
      }
      cache := cache[k := fromDb];
      return fromDb;
    }

    /** An entity of another class than the one it is filed under is refused. */
    method Set(c: Class, k: Key, v: Row) returns (ok: bool)
      modifies this
      ensures ok == (c == k.0)
      ensures View() == if ok then AfterSet(old(View()), k, v) else old(View())
    {
      ok := c == k.0;
      if ok {
        cache, dirty := cache[k := Some(v)], dirty[k := v];
      }
    }

    /**
     Write the dirty rows bucket by bucket; `after` is what is stored after each. Under a checked order
     nothing stays dirty and no foreign key dangles after any bucket, nor after any row when no dirty row
     links to another of its own class.
     */
    method Flush(ghost relations: seq<Relation>, ghost models: set<Class>, ghost schema: Schema) returns (ghost after: seq<Rows>)
      modifies this, store
      ensures |after| == |flushOrder| && AfterBuckets(old(store.rows), old(dirty), flushOrder, after)
      ensures Checked(flushOrder, relations, models, schema) && Flushable(models, schema, old(store.rows), old(dirty)) ==>
                AllConsistent(schema, after)
      ensures View() == AfterFlush(old(View()), flushOrder)
      ensures Checked(flushOrder, relations, models, schema) && Flushable(models, schema, old(store.rows), old(dirty)) ==>
                && dirty == map[] && store.rows == Written(old(store.rows), old(dirty)) && Consistent(schema, store.rows)
                && (NoLinksWithinClass(schema, old(store.rows), old(dirty)) ==>
                      StaysConsistent(schema, old(store.history), store.history))
    {
      ghost var rows0, dirty0 := store.rows, dirty;
      after := FlushBuckets(relations, models, schema);
      if Checked(flushOrder, relations, models, schema) && Flushable(models, schema, rows0, dirty0) {
        AllWritten(flushOrder, relations, models, schema, rows0, dirty0);
        AfterBucketsConsistent(flushOrder, relations, models, schema, rows0, dirty0, after);
      }
    }

    /** The loop over the flush order. */
    method FlushBuckets(ghost relations: seq<Relation>, ghost models: set<Class>, ghost schema: Schema) returns (ghost after: seq<Rows>)
      modifies this, store
      ensures View() == AfterFlush(old(View()), flushOrder)
      ensures |after| == |flushOrder| && AfterBuckets(old(store.rows), old(dirty), flushOrder, after)
      ensures RowByRowSafe(flushOrder, relations, models, schema, old(store.rows), old(dirty)) ==>
                StaysConsistent(schema, old(store.history), store.history)
    {
      ghost var rows0, dirty0, history0 := store.rows, dirty, store.history;
      ghost var safe := RowByRowSafe(flushOrder, relations, models, schema, rows0, dirty0);
      FlushStarts(rows0, dirty0, flushOrder);
      after := [];
      for i := 0 to |flushOrder|
        invariant store.rows == Written(rows0, Of(dirty0, flushOrder[..i]))
        invariant dirty == dirty0 - Of(dirty0, flushOrder[..i]).Keys
        invariant cache == old(cache)
        invariant |after| == i && AfterBuckets(rows0, dirty0, flushOrder, after)
        invariant safe ==> StaysConsistent(schema, history0, store.history)
      {
        WrittenNext(rows0, dirty0, flushOrder, i);
        LeftNext(dirty0, flushOrder, i);
        if safe {
          BucketIsSafe(flushOrder, relations, models, schema, rows0, dirty0, i);
        }
        ghost var history := store.history;
        FlushBucket(flushOrder[i], schema);
        if safe {
          StaysConsistentChain(schema, history0, history, store.history);
        }
        AfterNextBucket(rows0, dirty0, flushOrder, after, store.rows);
        after := after + [store.rows];
      }
      assert flushOrder[..|flushOrder|] == flushOrder;
    }

    method FlushBucket(c: Class, ghost schema: Schema)
      modifies this, store
      ensures cache == old(cache) && dirty == old(dirty) - Of(old(dirty), [c]).Keys
      ensures store.rows == Written(old(store.rows), Of(old(dirty), [c]))
      ensures Consistent(schema, old(store.rows)) && BatchLinksInto(schema, Of(old(dirty), [c]), old(store.rows).Keys) ==>
                StaysConsistent(schema, old(store.history), store.history)
    {
      var bucket := Of(dirty, [c]);
      if bucket == map[] {
        WrittenNothing(store.rows);
        assert dirty == dirty - bucket.Keys;
      } else {
        var batch := InMapOrder(bucket);
        store.Upsert(batch, schema);
        dirty := dirty - bucket.Keys;
      }
    }
  }

  /** What is stored after each of the first buckets: the rows there were with the dirty rows of the classes so far. */
  ghost predicate AfterBuckets(rows: Rows, dirty: Rows, order: seq<Class>, after: seq<Rows>)
  {
    |after| <= |order| && forall i | 0 <= i < |after| :: after[i] == Written(rows, Of(dirty, order[..i + 1]))
  }

  lemma AfterNextBucket(rows: Rows, dirty: Rows, order: seq<Class>, after: seq<Rows>, now: Rows)
    requires AfterBuckets(rows, dirty, order, after) && |after| < |order|
    requires now == Written(rows, Of(dirty, order[..|after| + 1]))
    ensures AfterBuckets(rows, dirty, order, after + [now])
  {
  }

  ghost predicate AllConsistent(schema: Schema, states: seq<Rows>)
  {
    forall rows | rows in states :: Consistent(schema, rows)
  }

  lemma AfterBucketsConsistent(order: seq<Class>, relations: seq<Relation>, models: set<Class>, schema: Schema,
                               rows: Rows, dirty: Rows, after: seq<Rows>)
    requires Checked(order, relations, models, schema) && Flushable(models, schema, rows, dirty)
    requires AfterBuckets(rows, dirty, order, after)
    ensures AllConsistent(schema, after)
  {
    forall i | 0 <= i < |after|
      ensures Consistent(schema, after[i])
    {
      ConsistentAfterClass(order, relations, models, schema, rows, dirty, i + 1);
    }
  }

  lemma FlushStarts(rows: Rows, dirty: Rows, order: seq<Class>)
    ensures Written(rows, Of(dirty, order[..0])) == rows && dirty - Of(dirty, order[..0]).Keys == dirty
  {
    assert Of(dirty, order[..0]) == map[];
    WrittenNothing(rows);
  }
}
