/**
 A store of rows with foreign keys, as the entity caches write to it. A link column of an entity in
 memory is not loaded, null, or an id; an upsert leaves columns that are not loaded as they are.
 */
module FkStore {
  /** Class names, column names and ids, as injective keys. */
  type Class = nat
  type Column = nat
  type Id = nat

  datatype Link = NotLoaded | Null | To(id: Id)

  /** `data` stands for the columns that are not links. */
  datatype Row = Row(links: map<Column, Link>, data: nat)

  /** Which class each link column of a class refers to. */
  type Schema = map<(Class, Column), Class>

  type Key = (Class, Id)

  type Rows = map<Key, Row>

  function LinkOf(r: Row, p: Column): (l: Link)
  {
    if p in r.links then r.links[p] else NotLoaded
  }

  /** A column that is not loaded is left out of the statement: it keeps its value, or is null in a new row. */
  function MergeLink(was: Link, given: Link): (l: Link)
  {
    if given != NotLoaded then given else if was != NotLoaded then was else Null
  }

  /** The stored row after an upsert over it. */
  function Merge(was: Row, r: Row): (m: Row)
  {
    Row((map p | p in was.links.Keys + r.links.Keys :: MergeLink(LinkOf(was, p), LinkOf(r, p))), r.data)
  }

  /** The stored row after an upsert of r at a key: merged into the row there, or inserted. */
  function Upserted(rows: Rows, k: Key, r: Row): (m: Row)
  {
    Merge(if k in rows then rows[k] else Row(map[], 0), r)
  }

  /** The store after upserting every row of a batch with distinct keys. */
  function Written(rows: Rows, batch: Rows): (r: Rows)
    ensures r.Keys == rows.Keys + batch.Keys
  {
    map k | k in rows.Keys + batch.Keys :: if k in batch then Upserted(rows, k, batch[k]) else rows[k]
  }

  /** No link dangles. */
  ghost predicate Consistent(schema: Schema, rows: Rows)
  {
    forall k, p | k in rows && (k.0, p) in schema && LinkOf(rows[k], p).To? ::
      (schema[(k.0, p)], LinkOf(rows[k], p).id) in rows
  }

  /** Every link of r, a row of class c, refers to one of these keys. */
  ghost predicate LinksInto(schema: Schema, c: Class, r: Row, keys: set<Key>)
  {
    forall p | (c, p) in schema && LinkOf(r, p).To? :: (schema[(c, p)], LinkOf(r, p).id) in keys
  }

  ghost predicate BatchLinksInto(schema: Schema, batch: Rows, keys: set<Key>)
  {
    forall k | k in batch :: LinksInto(schema, k.0, batch[k], keys)
  }

  lemma WrittenConsistent(schema: Schema, rows: Rows, batch: Rows)
    requires Consistent(schema, rows) && BatchLinksInto(schema, batch, rows.Keys + batch.Keys)
    ensures Consistent(schema, Written(rows, batch))
  {
    var w := Written(rows, batch);
    forall k, p | k in w && (k.0, p) in schema && LinkOf(w[k], p).To?
      ensures (schema[(k.0, p)], LinkOf(w[k], p).id) in w
    {
      if k in batch && LinkOf(batch[k], p) == NotLoaded {
        assert k in rows && LinkOf(w[k], p) == LinkOf(rows[k], p);
      }
    }
  }

  /** A written row holds the given data and every loaded link given; its other links keep their value, or are null. */
  lemma WrittenRow(rows: Rows, batch: Rows, k: Key)
    requires k in batch
    ensures k in Written(rows, batch) && Written(rows, batch)[k].data == batch[k].data
    ensures forall p | LinkOf(batch[k], p) != NotLoaded :: LinkOf(Written(rows, batch)[k], p) == LinkOf(batch[k], p)
    ensures forall p | LinkOf(batch[k], p) == NotLoaded && k in rows && LinkOf(rows[k], p) != NotLoaded ::
              LinkOf(Written(rows, batch)[k], p) == LinkOf(rows[k], p)
  {
    var was := if k in rows then rows[k] else Row(map[], 0);
    assert Written(rows, batch)[k] == Merge(was, batch[k]);
    forall p | LinkOf(batch[k], p) != NotLoaded || LinkOf(was, p) != NotLoaded
      ensures LinkOf(Merge(was, batch[k]), p) == MergeLink(LinkOf(was, p), LinkOf(batch[k], p))
    {
      assert p in was.links.Keys + batch[k].links.Keys;
    }
  }

  /** Writing disjoint batches one after the other is writing them together. */
  lemma WrittenTwice(rows: Rows, a: Rows, b: Rows)
    requires a.Keys !! b.Keys
    ensures Written(Written(rows, a), b) == Written(rows, a + b)
  {
    var l, r := Written(Written(rows, a), b), Written(rows, a + b);
    assert l.Keys == r.Keys;
    forall k | k in l
      ensures l[k] == r[k]
    {
    }
  }

  lemma WrittenNothing(rows: Rows)
    ensures Written(rows, map[]) == rows
  {
  }

  /** Every state of the store from `before` to `after` is consistent. */
  ghost predicate StaysConsistent(schema: Schema, before: seq<Rows>, after: seq<Rows>)
  {
    before <= after && forall n | |before| <= n < |after| :: Consistent(schema, after[n])
  }

  lemma StaysConsistentChain(schema: Schema, a: seq<Rows>, b: seq<Rows>, c: seq<Rows>)
    requires StaysConsistent(schema, a, b) && StaysConsistent(schema, b, c)
    ensures StaysConsistent(schema, a, c)
  {
  }

  /** The states a store goes through while the rows of a batch are upserted one by one. */
  ghost function States(rows: Rows, batch: seq<(Key, Row)>): (s: seq<Rows>)
  {
    seq(|batch|, n requires 0 <= n < |batch| => Written(rows, BatchMap(batch[..n + 1])))
  }

  /** The TypeORM store. `history` is every state it went through, row by row, since it was opened. */
  class Store {
    var rows: Rows
    ghost var history: seq<Rows>

    constructor (rows: Rows)
      ensures this.rows == rows && history == []
    {
      this.rows, history := rows, [];
    }

    /** Write the entities in the given order. */
    method Upsert(batch: seq<(Key, Row)>, ghost schema: Schema)
      requires forall i, j | 0 <= i < j < |batch| :: batch[i].0 != batch[j].0
      modifies this
      ensures rows == Written(old(rows), BatchMap(batch))
      ensures history == old(history) + States(old(rows), batch)
      ensures Consistent(schema, old(rows)) && BatchLinksInto(schema, BatchMap(batch), old(rows).Keys) ==>
                StaysConsistent(schema, old(history), history)
    {
      ghost var rows0, history0, states := rows, history, States(rows, batch);
      WrittenNothing(rows0);
      assert batch[..0] == [];
      for i := 0 to |batch|
        invariant rows == Written(rows0, BatchMap(batch[..i])) && history == history0 + states[..i]
      {
        UpsertStep(rows0, batch, i);
        var k, r := batch[i].0, batch[i].1;
        rows := rows[k := Upserted(rows, k, r)];
        history := history + [rows];
        assert states[..i + 1] == states[..i] + [rows];
      }
      assert batch[..|batch|] == batch && states[..|batch|] == states;
      if Consistent(schema, rows0) && BatchLinksInto(schema, BatchMap(batch), rows0.Keys) {
        StatesConsistent(schema, rows0, batch, history0);
      }
    }
  }

  lemma StatesConsistent(schema: Schema, rows: Rows, batch: seq<(Key, Row)>, history: seq<Rows>)
    requires forall i, j | 0 <= i < j < |batch| :: batch[i].0 != batch[j].0
    requires Consistent(schema, rows) && BatchLinksInto(schema, BatchMap(batch), rows.Keys)
    ensures StaysConsistent(schema, history, history + States(rows, batch))
  {
    var states := States(rows, batch);
    var after := history + states;
    forall n | |history| <= n < |after|
      ensures Consistent(schema, after[n])
    {
      PrefixConsistent(schema, rows, batch, n - |history| + 1);
      assert after[n] == states[n - |history|];
    }
  }

  lemma UpsertStep(rows: Rows, batch: seq<(Key, Row)>, i: nat)
    requires i < |batch| && forall i, j | 0 <= i < j < |batch| :: batch[i].0 != batch[j].0
    ensures var w, k, r := Written(rows, BatchMap(batch[..i])), batch[i].0, batch[i].1;
            w[k := Upserted(w, k, r)] == Written(rows, BatchMap(batch[..i + 1]))
  {
    var done, k, r := BatchMap(batch[..i]), batch[i].0, batch[i].1;
    assert batch[..i + 1][..i] == batch[..i];
    BatchMapKeys(batch[..i]);
    assert BatchMap(batch[..i + 1]) == done + map[k := r];
    assert Written(Written(rows, done), map[k := r]) == Written(rows, done)[k := Upserted(Written(rows, done), k, r)];
    WrittenTwice(rows, done, map[k := r]);
  }

  lemma PrefixConsistent(schema: Schema, rows: Rows, batch: seq<(Key, Row)>, n: nat)
    requires n <= |batch| && forall i, j | 0 <= i < j < |batch| :: batch[i].0 != batch[j].0
    requires Consistent(schema, rows) && BatchLinksInto(schema, BatchMap(batch), rows.Keys)
    ensures Consistent(schema, Written(rows, BatchMap(batch[..n])))
  {
    BatchMapPrefix(batch, n);
    WrittenConsistent(schema, rows, BatchMap(batch[..n]));
  }

  /** The rows of a batch by key. */
  function BatchMap(batch: seq<(Key, Row)>): (m: Rows)
  {
    if batch == [] then map[]
    else BatchMap(batch[..|batch| - 1])[batch[|batch| - 1].0 := batch[|batch| - 1].1]
  }

  lemma {:induction false} BatchMapKeys(batch: seq<(Key, Row)>)
    ensures forall k :: k in BatchMap(batch) <==> exists i :: 0 <= i < |batch| && batch[i].0 == k
  {
    if batch != [] {
      BatchMapKeys(batch[..|batch| - 1]);
    }
  }

  lemma {:induction false} BatchMapPrefix(batch: seq<(Key, Row)>, n: nat)
    requires n <= |batch| && forall i, j | 0 <= i < j < |batch| :: batch[i].0 != batch[j].0
    ensures forall k | k in BatchMap(batch[..n]) :: k in BatchMap(batch) && BatchMap(batch)[k] == BatchMap(batch[..n])[k]
    decreases |batch|
  {
    if n == |batch| {
      assert batch[..n] == batch;
    } else {
      var init := batch[..|batch| - 1];
      assert init[..n] == batch[..n];
      BatchMapPrefix(init, n);
      BatchMapKeys(init);
    }
  }

  lemma {:induction false} BatchMapRow(batch: seq<(Key, Row)>, i: nat)
    requires i < |batch| && forall i, j | 0 <= i < j < |batch| :: batch[i].0 != batch[j].0
    ensures batch[i].0 in BatchMap(batch) && BatchMap(batch)[batch[i].0] == batch[i].1
  {
    if i < |batch| - 1 {
      BatchMapRow(batch[..|batch| - 1], i);
    }
  }

  /** A batch listing every row of m once, in any order. */
  lemma BatchOf(batch: seq<(Key, Row)>, m: Rows)
    requires forall i, j | 0 <= i < j < |batch| :: batch[i].0 != batch[j].0
    requires forall i | 0 <= i < |batch| :: batch[i].0 in m && batch[i].1 == m[batch[i].0]
    requires forall k | k in m :: exists i :: 0 <= i < |batch| && batch[i].0 == k
    ensures BatchMap(batch) == m
  {
    BatchMapKeys(batch);
    forall k | k in m
      ensures BatchMap(batch)[k] == m[k]
    {
      var i: nat :| i < |batch| && batch[i].0 == k;
      BatchMapRow(batch, i);
    }
  }

  /** The rows of a map as a list, in the map's own order. */
  method InMapOrder(m: Rows) returns (batch: seq<(Key, Row)>)
    ensures forall i, j | 0 <= i < j < |batch| :: batch[i].0 != batch[j].0
    ensures BatchMap(batch) == m
  {
    batch := [];
    var todo := m.Keys;
    while todo != {}
      invariant todo <= m.Keys
      invariant forall n | 0 <= n < |batch| :: batch[n].0 !in todo
      invariant forall i, j | 0 <= i < j < |batch| :: batch[i].0 != batch[j].0
      invariant BatchMap(batch) == m - todo
    {
      var k :| k in todo;
      ghost var before := batch;
      batch := batch + [(k, m[k])];
      assert batch[..|batch| - 1] == before;
      todo := todo - {k};
    }
  }
}
