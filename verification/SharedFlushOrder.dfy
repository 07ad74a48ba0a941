/**
 The two checks squids/_shared/src/entityCache.ts makes on a flush order, and what they buy: with both
 passed, no foreign key dangles after any statement of a flush.
 */
module SharedFlushOrder {
  import opened FkStore

  // --- assertFlushOrderExhaustive ---------------------------------------------------------------

  function Listed(order: seq<Class>): (s: set<Class>)
  {
    set c | c in order
  }

  /** No class is missing, none is unknown, and the list is as long as the set it lists. */
  predicate PassesExhaustive(models: set<Class>, order: seq<Class>)
  {
    var listed := Listed(order);
    && (forall c | c in models :: c in listed)
    && (forall c | c in listed :: c in models)
    && |listed| == |order|
  }

  ghost predicate NoDuplicates(order: seq<Class>)
  {
    forall i, j | 0 <= i < j < |order| :: order[i] != order[j]
  }

  lemma {:induction false} ListedSize(order: seq<Class>)
    ensures |Listed(order)| <= |order| && (|Listed(order)| == |order| <==> NoDuplicates(order))
  {
    if order != [] {
      var init, last := order[..|order| - 1], order[|order| - 1];
      ListedSize(init);
      assert order == init + [last];
      assert Listed(order) == Listed(init) + {last};
      if last in init {
        assert Listed(order) == Listed(init);
        var i :| 0 <= i < |init| && init[i] == last;
        assert order[i] == order[|order| - 1];
      } else {
        assert NoDuplicates(order) <==> NoDuplicates(init);
      }
    }
  }

  /** The check passes exactly on the orderings of the models. */
  lemma ExhaustiveIff(models: set<Class>, order: seq<Class>)
    ensures PassesExhaustive(models, order) <==> NoDuplicates(order) && forall c :: c in models <==> c in order
  {
    ListedSize(order);
    assert forall c :: c in Listed(order) <==> c in order;
  }

  // --- assertFlushOrderIsFkSafe -----------------------------------------------------------------

  /** An owning-side relation: column `property` of class `source` refers to class `target`. */
  datatype Relation = Relation(source: Class, target: Class, property: Column)

  /** The position of each class in the order, the last one when it is listed more than once. */
  function Positions(order: seq<Class>): (m: map<Class, nat>)
    ensures forall c :: c in m <==> c in order
    ensures forall c | c in m :: m[c] < |order| && order[m[c]] == c
  {
    if order == [] then map[]
    else
      var init, last := order[..|order| - 1], order[|order| - 1];
      assert order == init + [last];
      Positions(init)[last := |order| - 1]
  }

  lemma {:induction false} PositionIsLast(order: seq<Class>, j: nat)
    requires j < |order|
    ensures j <= Positions(order)[order[j]]
  {
    if j < |order| - 1 {
      PositionIsLast(order[..|order| - 1], j);
    }
  }

  predicate Violates(order: seq<Class>, r: Relation)
  {
    var position := Positions(order);
    && r.source != r.target && r.source in position && r.target in position
    && position[r.target] > position[r.source]
  }

  /** The relations the check would report. */
  function Violations(order: seq<Class>, relations: seq<Relation>): (v: seq<Relation>)
    ensures forall r :: r in v <==> r in relations && Violates(order, r)
  {
    if relations == [] then []
    else
      (if Violates(order, relations[0]) then [relations[0]] else []) + Violations(order, relations[1..])
  }

  predicate PassesFkSafe(order: seq<Class>, relations: seq<Relation>)
  {
    Violations(order, relations) == []
  }

  /** On a list without duplicates: every relation to another listed class has it earlier in the list. */
  lemma FkSafeIff(order: seq<Class>, relations: seq<Relation>)
    requires NoDuplicates(order)
    ensures PassesFkSafe(order, relations) <==>
            forall i: nat, r | r in relations && i < |order| && order[i] == r.source && r.target in order ::
              r.target == r.source || r.target in order[..i]
  {
    var position := Positions(order);
    forall r | r in relations && r.source in order && r.target in order && r.target != r.source
      ensures !Violates(order, r) <==> r.target in order[..position[r.source]]
    {
      var t := position[r.target];
      assert order[t] == r.target && order[position[r.source]] == r.source;
      if t < position[r.source] {
        assert order[..position[r.source]][t] == r.target;
      }
    }
    forall i: nat, r | r in relations && i < |order| && order[i] == r.source
      ensures position[r.source] == i
    {
      assert order[position[order[i]]] == order[i];
    }
    var v := Violations(order, relations);
    assert v != [] ==> v[0] in v;
    assert PassesFkSafe(order, relations) <==> forall r | r in relations :: !Violates(order, r);
  }

  // --- The flush under a checked order ----------------------------------------------------------

  /** Every foreign key column of the schema is among the relations checked, and refers to a model. */
  ghost predicate Describes(relations: seq<Relation>, models: set<Class>, schema: Schema)
  {
    forall c, p | (c, p) in schema :: Relation(c, schema[(c, p)], p) in relations && schema[(c, p)] in models
  }

  ghost predicate Checked(order: seq<Class>, relations: seq<Relation>, models: set<Class>, schema: Schema)
  {
    PassesExhaustive(models, order) && PassesFkSafe(order, relations) && Describes(relations, models, schema)
  }

  /** Dirty rows of known classes, linking to stored or dirty rows, over a consistent store. */
  ghost predicate Flushable(models: set<Class>, schema: Schema, rows: Rows, d: Rows)
  {
    && Consistent(schema, rows) && BatchLinksInto(schema, d, rows.Keys + d.Keys)
    && forall k | k in d :: k.0 in models
  }

  /** The dirty rows of some classes. */
  function Of(d: Rows, classes: seq<Class>): (m: Rows)
  {
    map k | k in d && k.0 in classes :: d[k]
  }

  lemma LinkIsEarlier(order: seq<Class>, relations: seq<Relation>, models: set<Class>, schema: Schema, i: nat, p: Column)
    requires Checked(order, relations, models, schema) && i < |order| && (order[i], p) in schema
    ensures schema[(order[i], p)] == order[i] || schema[(order[i], p)] in order[..i]
  {
    ExhaustiveIff(models, order);
    FkSafeIff(order, relations);
    assert Relation(order[i], schema[(order[i], p)], p) in relations;
  }

  /** Once a class is written, no foreign key of the store dangles. */
  lemma ConsistentAfterClass(order: seq<Class>, relations: seq<Relation>, models: set<Class>, schema: Schema,
                             rows: Rows, d: Rows, i: nat)
    requires Checked(order, relations, models, schema) && Flushable(models, schema, rows, d) && i <= |order|
    ensures Consistent(schema, Written(rows, Of(d, order[..i])))
  {
    var batch := Of(d, order[..i]);
    forall k, p | k in batch && (k.0, p) in schema && LinkOf(batch[k], p).To?
      ensures (schema[(k.0, p)], LinkOf(batch[k], p).id) in rows.Keys + batch.Keys
    {
      var j: nat :| j < i && order[..i][j] == k.0;
      LinkIsEarlier(order, relations, models, schema, j, p);
      assert order[..i][..j] == order[..j];
      assert LinksInto(schema, k.0, d[k], rows.Keys + d.Keys);
    }
    WrittenConsistent(schema, rows, batch);
  }

  /** No dirty row links to a dirty row of its own class. */
  ghost predicate NoLinksWithinClass(schema: Schema, rows: Rows, d: Rows)
  {
    forall k, p | k in d && (k.0, p) in schema && schema[(k.0, p)] == k.0 && LinkOf(d[k], p).To? ::
      (k.0, LinkOf(d[k], p).id) in rows
  }

  /** Without links inside a class the rows of the next class refer only to rows already stored. */
  lemma NextLinksStored(order: seq<Class>, relations: seq<Relation>, models: set<Class>, schema: Schema,
                        rows: Rows, d: Rows, i: nat)
    requires Checked(order, relations, models, schema) && Flushable(models, schema, rows, d) && i < |order|
    requires NoLinksWithinClass(schema, rows, d)
    ensures BatchLinksInto(schema, Of(d, [order[i]]), Written(rows, Of(d, order[..i])).Keys)
  {
    forall k, p | k in Of(d, [order[i]]) && (k.0, p) in schema && LinkOf(d[k], p).To?
      ensures (schema[(k.0, p)], LinkOf(d[k], p).id) in Written(rows, Of(d, order[..i])).Keys
    {
      LinkIsEarlier(order, relations, models, schema, i, p);
      assert LinksInto(schema, k.0, d[k], rows.Keys + d.Keys);
    }
  }

  /** Writing the bucket of the next class, if it is still to be written. */
  lemma WrittenNext(rows: Rows, d: Rows, order: seq<Class>, i: nat)
    requires i < |order|
    ensures Written(Written(rows, Of(d, order[..i])), Of(d - Of(d, order[..i]).Keys, [order[i]]))
            == Written(rows, Of(d, order[..i + 1]))
  {
    var a, left := Of(d, order[..i]), d - Of(d, order[..i]).Keys;
    assert order[..i + 1] == order[..i] + [order[i]];
    WrittenTwice(rows, a, Of(left, [order[i]]));
    assert a + Of(left, [order[i]]) == Of(d, order[..i + 1]);
  }

  lemma LeftNext(d: Rows, order: seq<Class>, i: nat)
    requires i < |order|
    ensures var left := d - Of(d, order[..i]).Keys;
            left - Of(left, [order[i]]).Keys == d - Of(d, order[..i + 1]).Keys
  {
    assert order[..i + 1] == order[..i] + [order[i]];
  }

  lemma LeftOfClass(d: Rows, order: seq<Class>, i: nat)
    requires i < |order| && NoDuplicates(order)
    ensures Of(d - Of(d, order[..i]).Keys, [order[i]]) == Of(d, [order[i]])
  {
    assert order[i] !in order[..i];
  }

  /** What makes every single row of a flush safe to write. */
  ghost predicate RowByRowSafe(order: seq<Class>, relations: seq<Relation>, models: set<Class>, schema: Schema,
                               rows: Rows, d: Rows)
  {
    Checked(order, relations, models, schema) && Flushable(models, schema, rows, d) && NoLinksWithinClass(schema, rows, d)
  }

  lemma BucketIsSafe(order: seq<Class>, relations: seq<Relation>, models: set<Class>, schema: Schema,
                     rows: Rows, d: Rows, i: nat)
    requires RowByRowSafe(order, relations, models, schema, rows, d) && i < |order|
    ensures Consistent(schema, Written(rows, Of(d, order[..i])))
    ensures BatchLinksInto(schema, Of(d - Of(d, order[..i]).Keys, [order[i]]), Written(rows, Of(d, order[..i])).Keys)
  {
    ConsistentAfterClass(order, relations, models, schema, rows, d, i);
    NextLinksStored(order, relations, models, schema, rows, d, i);
    ExhaustiveIff(models, order);
    LeftOfClass(d, order, i);
  }

  /** Under a checked order everything is written, and nothing dangles in the end. */
  lemma AllWritten(order: seq<Class>, relations: seq<Relation>, models: set<Class>, schema: Schema, rows: Rows, d: Rows)
    requires Checked(order, relations, models, schema) && Flushable(models, schema, rows, d)
    ensures Of(d, order) == d && d - Of(d, order).Keys == map[] && Consistent(schema, Written(rows, d))
  {
    ExhaustiveIff(models, order);
    assert Of(d, order) == d;
    assert order[..|order|] == order;
    ConsistentAfterClass(order, relations, models, schema, rows, d, |order|);
  }
}
