/**
 The flush of squids/pearl-transactions/src/entityCache.ts. Service and AgentSafe refer to each other,
 so no order of classes satisfies both foreign keys; the flush writes the services without their agent
 safe first and again, with it, once the agent safes are stored.
 */
module PearlFlush {
  import opened FkStore

  // --- The entity classes and their links -------------------------------------------------------

  const AGENT_FUNDING_EVENT: Class := 0
  const AGENT_INSTANCE: Class := 1
  const AGENT_SAFE: Class := 2
  const BOND_MOVEMENT: Class := 3
  const DAILY_SERVICE_FUNDS: Class := 4
  const FUNDS_MOVEMENT: Class := 5
  const INDEXER_STATUS: Class := 6
  const MASTER_SAFE: Class := 7
  const PENDING_REGISTRATION: Class := 8
  const SERVICE: Class := 9
  const SERVICE_INDEX: Class := 10
  const SERVICE_NFT_CUSTODY_CHANGE: Class := 11
  const STAKING_CONTRACT: Class := 12
  const TOKEN: Class := 13
  const TOKEN_BALANCE: Class := 14
  const TRACKED_ADDRESS: Class := 15

  const MASTER_SAFE_LINK: Column := 0
  const AGENT_SAFE_LINK: Column := 1
  const SERVICE_LINK: Column := 2
  const STAKING_LINK: Column := 3
  const FUNDING_EVENT_LINK: Column := 4
  const TOKEN_LINK: Column := 5

  const SCHEMA: Schema := map[
    (AGENT_SAFE, MASTER_SAFE_LINK) := MASTER_SAFE,
    (AGENT_SAFE, SERVICE_LINK) := SERVICE,
    (SERVICE, MASTER_SAFE_LINK) := MASTER_SAFE,
    (SERVICE, AGENT_SAFE_LINK) := AGENT_SAFE,
    (SERVICE, STAKING_LINK) := STAKING_CONTRACT,
    (FUNDS_MOVEMENT, SERVICE_LINK) := SERVICE,
    (FUNDS_MOVEMENT, MASTER_SAFE_LINK) := MASTER_SAFE,
    (FUNDS_MOVEMENT, AGENT_SAFE_LINK) := AGENT_SAFE,
    (FUNDS_MOVEMENT, STAKING_LINK) := STAKING_CONTRACT,
    (FUNDS_MOVEMENT, FUNDING_EVENT_LINK) := AGENT_FUNDING_EVENT,
    (BOND_MOVEMENT, SERVICE_LINK) := SERVICE,
    (BOND_MOVEMENT, MASTER_SAFE_LINK) := MASTER_SAFE,
    (BOND_MOVEMENT, AGENT_SAFE_LINK) := AGENT_SAFE,
    (DAILY_SERVICE_FUNDS, SERVICE_LINK) := SERVICE,
    (SERVICE_NFT_CUSTODY_CHANGE, SERVICE_LINK) := SERVICE,
    (AGENT_INSTANCE, SERVICE_LINK) := SERVICE,
    (TRACKED_ADDRESS, MASTER_SAFE_LINK) := MASTER_SAFE,
    (TRACKED_ADDRESS, SERVICE_LINK) := SERVICE,
    (TOKEN_BALANCE, TOKEN_LINK) := TOKEN,
    (AGENT_FUNDING_EVENT, SERVICE_LINK) := SERVICE,
    (AGENT_FUNDING_EVENT, MASTER_SAFE_LINK) := MASTER_SAFE]

  const FLUSH_ORDER: seq<Class> := [
    MASTER_SAFE, TOKEN, STAKING_CONTRACT, SERVICE, AGENT_SAFE, TRACKED_ADDRESS, AGENT_INSTANCE, SERVICE_INDEX,
    PENDING_REGISTRATION, AGENT_FUNDING_EVENT, FUNDS_MOVEMENT, BOND_MOVEMENT, DAILY_SERVICE_FUNDS,
    SERVICE_NFT_CUSTODY_CHANGE, TOKEN_BALANCE, INDEXER_STATUS]

  /** Services come before agent safes in the order, and every link but theirs refers to a class written earlier. */
  ghost predicate SafeButForTheCycle(schema: Schema, order: seq<Class>)
  {
    && (forall i, j | 0 <= i < j < |order| :: order[i] != order[j])
    && (SERVICE, AGENT_SAFE_LINK) in schema && schema[(SERVICE, AGENT_SAFE_LINK)] == AGENT_SAFE
    && (forall i: nat | i < |order| && order[i] == AGENT_SAFE :: SERVICE in order[..i])
    && (forall i: nat, p | i < |order| && (order[i], p) in schema && (order[i], p) != (SERVICE, AGENT_SAFE_LINK) ::
          schema[(order[i], p)] in order[..i])
  }

  lemma FlushOrderIsSafeButForTheCycle()
    ensures SafeButForTheCycle(SCHEMA, FLUSH_ORDER)
  {
    forall i: nat, p | i < |FLUSH_ORDER| && (FLUSH_ORDER[i], p) in SCHEMA && (FLUSH_ORDER[i], p) != (SERVICE, AGENT_SAFE_LINK)
      ensures SCHEMA[(FLUSH_ORDER[i], p)] in FLUSH_ORDER[..i]
    {
      LinkIsEarlier(i, p);
    }
    FlushOrderListsOnce();
    forall i: nat | i < |FLUSH_ORDER| && FLUSH_ORDER[i] == AGENT_SAFE
      ensures SERVICE in FLUSH_ORDER[..i]
    {
      ServicesComeFirst(i);
    }
  }

  lemma ServicesComeFirst(i: nat)
    requires i < |FLUSH_ORDER| && FLUSH_ORDER[i] == AGENT_SAFE
    ensures SERVICE in FLUSH_ORDER[..i]
  {
    assert FLUSH_ORDER[..4][3] == SERVICE;
  }

  lemma FlushOrderListsOnce()
    ensures forall i, j | 0 <= i < j < |FLUSH_ORDER| :: FLUSH_ORDER[i] != FLUSH_ORDER[j]
  {
  }

  lemma FlushOrderIsExhaustive(c: Class)
    requires c <= TRACKED_ADDRESS
    ensures c in FLUSH_ORDER
  {
    assert FLUSH_ORDER[0] == MASTER_SAFE && FLUSH_ORDER[1] == TOKEN && FLUSH_ORDER[2] == STAKING_CONTRACT;
    assert FLUSH_ORDER[3] == SERVICE && FLUSH_ORDER[4] == AGENT_SAFE && FLUSH_ORDER[5] == TRACKED_ADDRESS;
    assert FLUSH_ORDER[6] == AGENT_INSTANCE && FLUSH_ORDER[7] == SERVICE_INDEX && FLUSH_ORDER[8] == PENDING_REGISTRATION;
    assert FLUSH_ORDER[9] == AGENT_FUNDING_EVENT && FLUSH_ORDER[10] == FUNDS_MOVEMENT && FLUSH_ORDER[11] == BOND_MOVEMENT;
    assert FLUSH_ORDER[12] == DAILY_SERVICE_FUNDS && FLUSH_ORDER[13] == SERVICE_NFT_CUSTODY_CHANGE;
    assert FLUSH_ORDER[14] == TOKEN_BALANCE && FLUSH_ORDER[15] == INDEXER_STATUS;
  }

  lemma LinkIsEarlier(i: nat, p: Column)
    requires i < |FLUSH_ORDER| && (FLUSH_ORDER[i], p) in SCHEMA && (FLUSH_ORDER[i], p) != (SERVICE, AGENT_SAFE_LINK)
    ensures SCHEMA[(FLUSH_ORDER[i], p)] in FLUSH_ORDER[..i]
  {
    var t := SCHEMA[(FLUSH_ORDER[i], p)];
    assert t == MASTER_SAFE || t == SERVICE || t == STAKING_CONTRACT || t == TOKEN || t == AGENT_SAFE || t == AGENT_FUNDING_EVENT;
    assert FLUSH_ORDER[0] == MASTER_SAFE && FLUSH_ORDER[1] == TOKEN && FLUSH_ORDER[2] == STAKING_CONTRACT;
    assert FLUSH_ORDER[3] == SERVICE && FLUSH_ORDER[4] == AGENT_SAFE && FLUSH_ORDER[9] == AGENT_FUNDING_EVENT;
  }

  /** The exception is genuine: in every order of the classes some class comes before one it refers to. */
  lemma NoOrderIsSafe(order: seq<Class>, i: nat, j: nat)
    requires forall m, n | 0 <= m < n < |order| :: order[m] != order[n]
    requires i < |order| && j < |order| && order[i] == SERVICE && order[j] == AGENT_SAFE
    ensures exists k, p | 0 <= k < |order| && (order[k], p) in SCHEMA :: SCHEMA[(order[k], p)] !in order[..k]
  {
    if i < j {
      assert (order[i], AGENT_SAFE_LINK) in SCHEMA && AGENT_SAFE !in order[..i];
    } else {
      assert (order[j], SERVICE_LINK) in SCHEMA && SERVICE !in order[..j];
    }
  }

  // --- What the flush writes, by value ----------------------------------------------------------

  /** A service row as pass 1 writes it. */
  function WithoutAgentSafe(r: Row): (n: Row)
  {
    if LinkOf(r, AGENT_SAFE_LINK).To? then r.(links := r.links[AGENT_SAFE_LINK := Null]) else r
  }

  /** The value of a dirty row while the agent safe links are held back. */
  function HeldBack(held: bool, k: Key, r: Row): (n: Row)
  {
    if held && k.0 == SERVICE then WithoutAgentSafe(r) else r
  }

  /** The dirty rows of the classes already written. */
  function Done(d: Rows, order: seq<Class>, held: bool): (m: Rows)
  {
    map k | k in d && k.0 in order :: HeldBack(held, k, d[k])
  }

  /** The dirty rows of one class. */
  function OfClass(d: Rows, c: Class, held: bool): (m: Rows)
  {
    map k | k in d && k.0 == c :: HeldBack(held, k, d[k])
  }

  /** The dirty services whose agent safe was held back. */
  function Deferred(d: Rows): (m: Rows)
  {
    map k | k in d && k.0 == SERVICE && LinkOf(d[k], AGENT_SAFE_LINK).To? :: d[k]
  }

  lemma DoneNext(rows: Rows, d: Rows, order: seq<Class>, i: nat, held: bool)
    requires i < |order| && order[i] !in order[..i]
    ensures Written(Written(rows, Done(d, order[..i], held)), OfClass(d, order[i], held))
            == Written(rows, Done(d, order[..i + 1], held))
  {
    var a, b := Done(d, order[..i], held), OfClass(d, order[i], held);
    assert order[..i + 1] == order[..i] + [order[i]];
    WrittenTwice(rows, a, b);
    assert a + b == Done(d, order[..i + 1], held);
  }

  /** Writing a row twice, first without and then with its agent safe, is writing it once. */
  lemma UpsertTwice(rows: Rows, k: Key, r: Row)
    requires LinkOf(r, AGENT_SAFE_LINK).To?
    ensures Merge(Upserted(rows, k, WithoutAgentSafe(r)), r) == Upserted(rows, k, r)
  {
    var once, twice := Upserted(rows, k, r), Merge(Upserted(rows, k, WithoutAgentSafe(r)), r);
    assert once.links.Keys == twice.links.Keys;
    forall p | p in once.links
      ensures once.links[p] == twice.links[p]
    {
    }
  }

  /** Pass 2 completes what pass 1 held back. */
  lemma SecondPass(rows: Rows, d: Rows, order: seq<Class>)
    requires SERVICE in order
    ensures Written(Written(rows, Done(d, order, true)), Deferred(d)) == Written(rows, Done(d, order, false))
  {
    var first, held, full := Written(rows, Done(d, order, true)), Done(d, order, true), Done(d, order, false);
    var l, r := Written(first, Deferred(d)), Written(rows, full);
    assert held.Keys == full.Keys && l.Keys == r.Keys;
    forall k | k in l
      ensures l[k] == r[k]
    {
      if k in Deferred(d) {
        assert first[k] == Upserted(rows, k, WithoutAgentSafe(d[k]));
        UpsertTwice(rows, k, d[k]);
      } else if k in held {
        assert held[k] == full[k];
      }
    }
  }

  /** What the caller guarantees: dirty links refer to stored or dirty rows, of listed classes. */
  ghost predicate Flushable(schema: Schema, order: seq<Class>, rows: Rows, d: Rows)
  {
    && Consistent(schema, rows) && BatchLinksInto(schema, d, rows.Keys + d.Keys)
    && forall k | k in d :: k.0 in order
  }

  /** While the services are written, no agent safe is dirty or the links to them are held back. */
  ghost predicate CycleBroken(d: Rows, held: bool)
  {
    held || Deferred(d) == map[] || forall k | k in d :: k.0 != AGENT_SAFE
  }

  /** The rows of the next class refer only to rows stored by then. */
  lemma NextLinksStored(schema: Schema, order: seq<Class>, rows: Rows, d: Rows, i: nat, held: bool)
    requires i < |order| && SafeButForTheCycle(schema, order) && Flushable(schema, order, rows, d)
    requires order[i] == SERVICE ==> CycleBroken(d, held)
    ensures BatchLinksInto(schema, OfClass(d, order[i], held), Written(rows, Done(d, order[..i], held)).Keys)
  {
    var c, stored := order[i], Written(rows, Done(d, order[..i], held)).Keys;
    var batch := OfClass(d, c, held);
    forall k, p | k in batch && (c, p) in schema && LinkOf(batch[k], p).To?
      ensures (schema[(c, p)], LinkOf(batch[k], p).id) in stored
    {
      assert LinkOf(d[k], p) == LinkOf(batch[k], p);
      assert LinksInto(schema, c, d[k], rows.Keys + d.Keys);
      if c == SERVICE && p == AGENT_SAFE_LINK {
        assert k in Deferred(d);
      }
    }
  }

  /** The services of pass 2 refer only to rows stored by then. */
  lemma DeferredLinksStored(schema: Schema, order: seq<Class>, rows: Rows, d: Rows, i: nat)
    requires i < |order| && SafeButForTheCycle(schema, order) && Flushable(schema, order, rows, d) && order[i] == AGENT_SAFE
    ensures BatchLinksInto(schema, Deferred(d), Written(rows, Done(d, order[..i + 1], true)).Keys)
  {
    forall k, p | k in Deferred(d) && (SERVICE, p) in schema && LinkOf(d[k], p).To?
      ensures (schema[(SERVICE, p)], LinkOf(d[k], p).id) in Written(rows, Done(d, order[..i + 1], true)).Keys
    {
      ServiceLinkIsEarlier(schema, order, i, p);
      assert LinksInto(schema, SERVICE, d[k], rows.Keys + d.Keys);
    }
  }

  /** Every class a service refers to, agent safes included, is written by the time they are. */
  lemma ServiceLinkIsEarlier(schema: Schema, order: seq<Class>, i: nat, p: Column)
    requires i < |order| && SafeButForTheCycle(schema, order) && order[i] == AGENT_SAFE && (SERVICE, p) in schema
    ensures schema[(SERVICE, p)] in order[..i + 1]
  {
    if p == AGENT_SAFE_LINK {
      assert order[..i + 1][i] == AGENT_SAFE;
    } else {
      var s: nat :| s < i && order[..i][s] == SERVICE;
      var t: nat :| t < s && order[..s][t] == schema[(order[s], p)];
      assert order[..i + 1][t] == schema[(SERVICE, p)];
    }
  }

  // --- The flush -------------------------------------------------------------------------------

  class Entity {
    const cls: Class
    const id: Id
    var links: map<Column, Link>
    var data: nat

    constructor (cls: Class, id: Id, links: map<Column, Link>, data: nat)
      ensures this.cls == cls && this.id == id && Value() == Row(links, data)
    {
      this.cls, this.id, this.links, this.data := cls, id, links, data;
    }

    function Value(): (r: Row)
      reads this
    {
      Row(links, data)
    }
  }

  /** The dirty entities by class and id. */
  type Filed = map<Key, Entity>

  ghost predicate WellFiled(b: Filed)
  {
    forall k | k in b :: (b[k].cls, b[k].id) == k
  }

  ghost function Snapshot(b: Filed): (d: Rows)
    reads b.Values
  {
    map k | k in b :: b[k].Value()
  }

  /** The entities filed in b have the values d gives them, with the agent safes of `held` held back. */
  ghost predicate Holds(b: Filed, d: Rows, held: set<Key>)
    reads b.Values
  {
    d.Keys == b.Keys && forall k | k in b :: b[k].Value() == if k in held then WithoutAgentSafe(d[k]) else d[k]
  }

  /** `deferred` lists the services of `held`, each once and with its agent safe. */
  ghost predicate Kept(deferred: seq<(Entity, Link)>, b: Filed, d: Rows, held: set<Key>)
  {
    && (forall n | 0 <= n < |deferred| :: KeptOne(deferred[n].0, deferred[n].1, b, d, held))
    && (forall m, n | 0 <= m < n < |deferred| :: deferred[m].0.id != deferred[n].0.id)
    && (forall k | k in held :: exists n :: 0 <= n < |deferred| && (SERVICE, deferred[n].0.id) == k)
  }

  ghost predicate KeptOne(e: Entity, l: Link, b: Filed, d: Rows, held: set<Key>)
  {
    var k := (SERVICE, e.id);
    k in b && b[k] == e && k in held && k in Deferred(d) && l == LinkOf(d[k], AGENT_SAFE_LINK)
  }

  lemma KeptAppend(deferred: seq<(Entity, Link)>, e: Entity, l: Link, b: Filed, d: Rows, held: set<Key>)
    requires Kept(deferred, b, d, held) && (SERVICE, e.id) !in held
    requires KeptOne(e, l, b, d, held + {(SERVICE, e.id)})
    ensures Kept(deferred + [(e, l)], b, d, held + {(SERVICE, e.id)})
  {
    var after := deferred + [(e, l)];
    forall n | 0 <= n < |after|
      ensures KeptOne(after[n].0, after[n].1, b, d, held + {(SERVICE, e.id)})
    {
      if n < |deferred| {
        assert KeptOne(deferred[n].0, deferred[n].1, b, d, held);
      }
    }
    forall k | k in held + {(SERVICE, e.id)}
      ensures exists n :: 0 <= n < |after| && (SERVICE, after[n].0.id) == k
    {
      if k in held {
        var n :| 0 <= n < |deferred| && (SERVICE, deferred[n].0.id) == k;
        assert (SERVICE, after[n].0.id) == k;
      } else {
        assert (SERVICE, after[|deferred|].0.id) == k;
      }
    }
  }

  /** Keep the agent safe of every dirty service aside, and null it. */
  method HoldBackAgentSafes(b: Filed, ghost d: Rows) returns (deferred: seq<(Entity, Link)>)
    requires WellFiled(b) && Holds(b, d, {})
    modifies b.Values
    ensures Holds(b, d, Deferred(d).Keys) && Kept(deferred, b, d, Deferred(d).Keys)
  {
    deferred := [];
    ghost var held: set<Key> := {};
    var todo := set k | k in b && k.0 == SERVICE;
    while todo != {}
      invariant forall k | k in todo :: k in b && k.0 == SERVICE
      invariant held == Deferred(d).Keys - todo
      invariant Holds(b, d, held) && Kept(deferred, b, d, held)
    {
      var k :| k in todo;
      todo := todo - {k};
      var e := b[k];
      var l := LinkOf(e.Value(), AGENT_SAFE_LINK);
      if l.To? {
        HoldBack(b, k, d, held);
        KeptAppend(deferred, e, l, b, d, held);
        deferred := deferred + [(e, l)];
        held := held + {k};
      }
    }
    assert held == Deferred(d).Keys;
  }

  method HoldBack(b: Filed, k: Key, ghost d: Rows, ghost held: set<Key>)
    requires WellFiled(b) && Holds(b, d, held) && k in Deferred(d).Keys - held
    modifies b[k]
    ensures Holds(b, d, held + {k})
  {
    b[k].links := b[k].links[AGENT_SAFE_LINK := Null];
  }

  method PutBack(e: Entity, l: Link, ghost b: Filed, ghost d: Rows, ghost held: set<Key>)
    requires WellFiled(b) && Holds(b, d, held) && KeptOne(e, l, b, d, held)
    modifies e
    ensures Holds(b, d, held - {(SERVICE, e.id)})
  {
    e.links := e.links[AGENT_SAFE_LINK := l];
    ghost var k := (SERVICE, e.id);
    assert e.Value().links == d[k].links;
  }

  /** Put the agent safes back. */
  method RestoreAgentSafes(deferred: seq<(Entity, Link)>, ghost b: Filed, ghost d: Rows, ghost held: set<Key>)
    requires WellFiled(b) && Holds(b, d, held) && Kept(deferred, b, d, held)
    modifies b.Values
    ensures Holds(b, d, {})
  {
    ghost var left := held;
    for m := 0 to |deferred|
      invariant Holds(b, d, left)
      invariant forall n | m <= n < |deferred| :: KeptOne(deferred[n].0, deferred[n].1, b, d, left)
      invariant left <= held && forall n | 0 <= n < m :: (SERVICE, deferred[n].0.id) !in left
    {
      PutBack(deferred[m].0, deferred[m].1, b, d, left);
      left := left - {(SERVICE, deferred[m].0.id)};
    }
    forall k | k in held
      ensures k !in left
    {
      var n :| 0 <= n < |deferred| && (SERVICE, deferred[n].0.id) == k;
    }
    assert left == {};
  }

  /** The rows of one bucket. */
  function Bucket(b: Filed, c: Class): (m: Rows)
    reads b.Values
  {
    map k | k in b && k.0 == c :: b[k].Value()
  }

  /** The services whose agent safe was held back, in order. */
  method DeferredRows(deferred: seq<(Entity, Link)>, ghost b: Filed, ghost d: Rows) returns (batch: seq<(Key, Row)>)
    requires WellFiled(b) && Holds(b, d, {}) && Kept(deferred, b, d, Deferred(d).Keys)
    ensures forall i, j | 0 <= i < j < |batch| :: batch[i].0 != batch[j].0
    ensures BatchMap(batch) == Deferred(d)
  {
    batch := [];
    for m := 0 to |deferred|
      invariant |batch| == m && forall n | 0 <= n < m :: batch[n].0 == (SERVICE, deferred[n].0.id)
      invariant forall n | 0 <= n < m :: batch[n].0 in d && batch[n].1 == d[batch[n].0]
    {
      var e := deferred[m].0;
      assert KeptOne(e, deferred[m].1, b, d, Deferred(d).Keys);
      batch := batch + [((SERVICE, e.id), e.Value())];
    }
    BatchOf(batch, Deferred(d));
  }

  lemma DoneNothing(rows: Rows, d: Rows, held: bool)
    ensures Written(rows, Done(d, [], held)) == rows
  {
    assert Done(d, [], held) == map[];
    WrittenNothing(rows);
  }

  /** What is filed once the bucket of c is cleared. */
  function Without(b: Filed, c: Class): (n: Filed)
  {
    map k | k in b && k.0 != c :: b[k]
  }

  /** The buckets of the classes already written are empty. */
  ghost predicate Cleared(b: Filed, now: Filed, done: seq<Class>)
  {
    now == map k | k in b && k.0 !in done :: b[k]
  }

  lemma BucketIsOfClass(b: Filed, now: Filed, d: Rows, order: seq<Class>, i: nat, held: bool)
    requires i < |order| && order[i] !in order[..i] && Cleared(b, now, order[..i])
    requires Holds(b, d, if held then Deferred(d).Keys else {})
    ensures Bucket(now, order[i]) == OfClass(d, order[i], held)
  {
  }

  lemma ClearedNext(b: Filed, now: Filed, order: seq<Class>, i: nat)
    requires i < |order| && Cleared(b, now, order[..i])
    ensures Cleared(b, Without(now, order[i]), order[..i + 1])
  {
    assert order[..i + 1] == order[..i] + [order[i]];
  }

  /** Before class i: the classes before it are written and their buckets cleared, and services can be written. */
  ghost predicate Reached(order: seq<Class>, i: nat, held: bool, b: Filed, d: Rows, rows0: Rows, now: Filed, rows: Rows)
  {
    && i <= |order| && Cleared(b, now, order[..i]) && rows == Written(rows0, Done(d, order[..i], held))
    && (SERVICE in order[..i] || CycleBroken(d, held))
  }

  lemma ReachedFirst(order: seq<Class>, held: bool, b: Filed, d: Rows, rows0: Rows)
    requires CycleBroken(d, held)
    ensures Reached(order, 0, held, b, d, rows0, b, rows0)
  {
    DoneNothing(rows0, d, held);
    assert order[..0] == [];
  }

  lemma ReachedLinksStored(schema: Schema, order: seq<Class>, i: nat, held: bool, b: Filed, d: Rows, rows0: Rows, now: Filed, rows: Rows)
    requires i < |order| && SafeButForTheCycle(schema, order) && Flushable(schema, order, rows0, d)
    requires Reached(order, i, held, b, d, rows0, now, rows) && Holds(b, d, if held then Deferred(d).Keys else {})
    ensures BatchLinksInto(schema, Bucket(now, order[i]), rows.Keys)
  {
    NextLinksStored(schema, order, rows0, d, i, held);
    BucketIsOfClass(b, now, d, order, i, held);
  }

  lemma ReachedNext(order: seq<Class>, i: nat, held: bool, b: Filed, d: Rows, rows0: Rows, now: Filed, rows: Rows)
    requires i < |order| && order[i] !in order[..i]
    requires Reached(order, i, held, b, d, rows0, now, rows) && Holds(b, d, if held then Deferred(d).Keys else {})
    ensures Reached(order, i + 1, held, b, d, rows0, Without(now, order[i]), Written(rows, Bucket(now, order[i])))
  {
    BucketIsOfClass(b, now, d, order, i, held);
    DoneNext(rows0, d, order, i, held);
    ClearedNext(b, now, order, i);
    assert order[..i + 1] == order[..i] + [order[i]];
  }

  /** After pass 2 nothing is held back. */
  lemma ReachedSecondPass(schema: Schema, order: seq<Class>, i: nat, b: Filed, d: Rows, rows0: Rows, now: Filed, rows: Rows)
    requires i < |order| && SafeButForTheCycle(schema, order) && Flushable(schema, order, rows0, d) && order[i] == AGENT_SAFE
    requires Reached(order, i + 1, true, b, d, rows0, now, rows)
    ensures BatchLinksInto(schema, Deferred(d), rows.Keys)
    ensures Reached(order, i + 1, false, b, d, rows0, now, Written(rows, Deferred(d)))
  {
    DeferredLinksStored(schema, order, rows0, d, i);
    assert order[..i + 1] == order[..i] + [order[i]];
    SecondPass(rows0, d, order[..i + 1]);
  }

  lemma ReachedLast(order: seq<Class>, b: Filed, d: Rows, rows0: Rows, now: Filed, rows: Rows)
    requires Reached(order, |order|, false, b, d, rows0, now, rows) && d.Keys == b.Keys && forall k | k in d :: k.0 in order
    ensures now == map[] && rows == Written(rows0, d)
  {
    assert order[..|order|] == order;
    assert Done(d, order, false) == d;
  }

  predicate HasClass(b: Filed, c: Class)
  {
    exists k | k in b :: k.0 == c
  }

  lemma NothingOfClass(b: Filed, c: Class, rows: Rows)
    requires !HasClass(b, c)
    ensures Without(b, c) == b && Written(rows, Bucket(b, c)) == rows
  {
    assert Bucket(b, c) == map[];
    WrittenNothing(rows);
  }

  /** Before class i: pass 2 is still to come. */
  ghost predicate Pending(order: seq<Class>, i: nat, deferred: seq<(Entity, Link)>, b: Filed, d: Rows)
  {
    && i <= |order| && HasClass(b, AGENT_SAFE) && AGENT_SAFE !in order[..i]
    && Kept(deferred, b, d, Deferred(d).Keys)
  }

  lemma PendingNext(order: seq<Class>, i: nat, deferred: seq<(Entity, Link)>, b: Filed, d: Rows)
    requires i < |order| && Pending(order, i, deferred, b, d)
    ensures order[i] != AGENT_SAFE ==> Pending(order, i + 1, deferred, b, d)
  {
    assert order[..i + 1] == order[..i] + [order[i]];
  }

  lemma PendingDirty(order: seq<Class>, i: nat, deferred: seq<(Entity, Link)>, b: Filed, d: Rows, now: Filed)
    requires i < |order| && Pending(order, i, deferred, b, d) && Cleared(b, now, order[..i])
    ensures HasClass(now, AGENT_SAFE)
  {
    var k :| k in b && k.0 == AGENT_SAFE;
    assert k in now;
  }

  lemma NotPendingLast(order: seq<Class>, deferred: seq<(Entity, Link)>, b: Filed, d: Rows)
    requires d.Keys == b.Keys && forall k | k in d :: k.0 in order
    ensures !Pending(order, |order|, deferred, b, d)
  {
    assert order[..|order|] == order;
  }

  class EntityCache {
    var dirty: Filed
    const store: Store

    constructor (store: Store)
      ensures this.store == store && dirty == map[]
    {
      this.store, dirty := store, map[];
    }

    /** File an entity for the next flush. */
    method Set(e: Entity)
      requires WellFiled(dirty)
      modifies this
      ensures WellFiled(dirty)
      ensures Snapshot(dirty) == old(Snapshot(dirty))[(e.cls, e.id) := e.Value()]
    {
      dirty := dirty[(e.cls, e.id) := e];
    }

    /** Write one bucket, if it is not empty, and clear it. */
    method FlushBucket(c: Class, ghost schema: Schema, ghost b: Filed, ghost d: Rows, ghost held: set<Key>)
      returns (wrote: bool)
      requires Holds(b, d, held)
      requires Consistent(schema, store.rows) && BatchLinksInto(schema, Bucket(dirty, c), store.rows.Keys)
      modifies this, store
      ensures wrote == HasClass(old(dirty), c)
      ensures store.rows == old(Written(store.rows, Bucket(dirty, c)))
      ensures dirty == Without(old(dirty), c) && Holds(b, d, held)
      ensures Consistent(schema, store.rows) && StaysConsistent(schema, old(store.history), store.history)
    {
      WrittenConsistent(schema, store.rows, Bucket(dirty, c));
      wrote := HasClass(dirty, c);
      if !wrote {
        NothingOfClass(dirty, c, store.rows);
      } else {
        var batch := InMapOrder(Bucket(dirty, c));
        store.Upsert(batch, schema);
        dirty := Without(dirty, c);
      }
    }

    /** Pass 2: put the agent safes back and write their services again. */
    method SecondUpsert(deferred: seq<(Entity, Link)>, ghost schema: Schema, ghost b: Filed, ghost d: Rows)
      requires WellFiled(b) && Holds(b, d, Deferred(d).Keys) && Kept(deferred, b, d, Deferred(d).Keys)
      requires Consistent(schema, store.rows) && BatchLinksInto(schema, Deferred(d), store.rows.Keys)
      modifies store, b.Values
      ensures store.rows == Written(old(store.rows), Deferred(d)) && Holds(b, d, {}) && dirty == old(dirty)
      ensures Consistent(schema, store.rows) && StaysConsistent(schema, old(store.history), store.history)
    {
      WrittenConsistent(schema, store.rows, Deferred(d));
      RestoreAgentSafes(deferred, b, d, Deferred(d).Keys);
      var again := DeferredRows(deferred, b, d);
      store.Upsert(again, schema);
    }

    /** The state of the flush before class i. */
    ghost predicate Midway(order: seq<Class>, i: nat, schema: Schema, deferred: seq<(Entity, Link)>, b: Filed, d: Rows, rows0: Rows)
      reads this, store, b.Values
    {
      var held := deferred != [];
      && i <= |order| && Consistent(schema, store.rows)
      && Reached(order, i, held, b, d, rows0, dirty, store.rows)
      && Holds(b, d, if held then Deferred(d).Keys else {})
      && (held ==> Pending(order, i, deferred, b, d))
    }

    /** Write the dirty rows of one class, and after the agent safes the services again. */
    method FlushClass(order: seq<Class>, i: nat, deferred: seq<(Entity, Link)>,
                      ghost schema: Schema, ghost b: Filed, ghost d: Rows, ghost rows0: Rows)
      returns (left: seq<(Entity, Link)>)
      requires i < |order| && WellFiled(b) && SafeButForTheCycle(schema, order) && Flushable(schema, order, rows0, d)
      requires Midway(order, i, schema, deferred, b, d, rows0)
      modifies this, store, b.Values
      ensures Midway(order, i + 1, schema, left, b, d, rows0)
      ensures StaysConsistent(schema, old(store.history), store.history)
    {
      left := deferred;
      ghost var held, history0 := deferred != [], store.history;
      if held {
        PendingDirty(order, i, deferred, b, d, dirty);
        PendingNext(order, i, deferred, b, d);
      }
      ReachedLinksStored(schema, order, i, held, b, d, rows0, dirty, store.rows);
      ReachedNext(order, i, held, b, d, rows0, dirty, store.rows);
      var wrote := FlushBucket(order[i], schema, b, d, if held then Deferred(d).Keys else {});
      if wrote && order[i] == AGENT_SAFE && |deferred| > 0 {
        ghost var history1 := store.history;
        ReachedSecondPass(schema, order, i, b, d, rows0, dirty, store.rows);
        SecondUpsert(deferred, schema, b, d);
        StaysConsistentChain(schema, history0, history1, store.history);
        left := [];
      }
    }

    /** Write the dirty rows class by class, in an order that is safe but for the cycle. */
    method FlushInOrder(order: seq<Class>, ghost schema: Schema)
      requires WellFiled(dirty) && SafeButForTheCycle(schema, order)
      requires Flushable(schema, order, store.rows, Snapshot(dirty))
      modifies this, store, dirty.Values
      ensures store.rows == Written(old(store.rows), old(Snapshot(dirty)))
      ensures StaysConsistent(schema, old(store.history), store.history)
      ensures dirty == map[] && forall e | e in old(dirty).Values :: e.Value() == old(e.Value())
    {
      ghost var b, d, rows0, history0 := dirty, Snapshot(dirty), store.rows, store.history;
      var deferred: seq<(Entity, Link)> := [];
      if HasClass(dirty, SERVICE) && HasClass(dirty, AGENT_SAFE) {
        deferred := HoldBackAgentSafes(dirty, d);
      }
      ReachedFirst(order, deferred != [], b, d, rows0);
      for i := 0 to |order|
        invariant Midway(order, i, schema, deferred, b, d, rows0)
        invariant StaysConsistent(schema, history0, store.history)
      {
        ghost var history := store.history;
        deferred := FlushClass(order, i, deferred, schema, b, d, rows0);
        StaysConsistentChain(schema, history0, history, store.history);
      }
      NotPendingLast(order, deferred, b, d);
      ReachedLast(order, b, d, rows0, dirty, store.rows);
    }

    /** flush(): after every row written no link dangles, and in the end every dirty row is stored as it is. */
    method Flush()
      requires WellFiled(dirty) && Flushable(SCHEMA, FLUSH_ORDER, store.rows, Snapshot(dirty))
      modifies this, store, dirty.Values
      ensures store.rows == Written(old(store.rows), old(Snapshot(dirty)))
      ensures StaysConsistent(SCHEMA, old(store.history), store.history)
      ensures dirty == map[] && forall e | e in old(dirty).Values :: e.Value() == old(e.Value())
    {
      FlushOrderIsSafeButForTheCycle();
      FlushInOrder(FLUSH_ORDER, SCHEMA);
    }
  }
}
