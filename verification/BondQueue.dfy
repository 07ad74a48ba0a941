/**
 The queue that attributes bond movements to services, per transaction and in order: BondQueue of
 squids/pearl-transactions/src/logic.ts.
 */
module BondQueue {
  import opened Wrappers

  type TxHash = nat
  type BondId = nat
  type ServiceId = nat

  datatype Entry = Entry(id: BondId, done: bool)

  // --- One transaction's queue ------------------------------------------------------------------

  function Ids(q: seq<Entry>): (ids: seq<BondId>)
  {
    seq(|q|, i requires 0 <= i < |q| => q[i].id)
  }

  /** How many of the oldest rows are attributed. */
  function Attributed(q: seq<Entry>): (n: nat)
    ensures n <= |q|
  {
    if q == [] || !q[0].done then 0 else 1 + Attributed(q[1..])
  }

  /** Rows are attributed from the oldest on, without a gap. */
  ghost predicate InOrder(q: seq<Entry>)
  {
    forall i | 0 <= i < |q| :: q[i].done <==> i < Attributed(q)
  }

  lemma {:induction false} AttributedIs(q: seq<Entry>, n: nat)
    requires n <= |q| && forall i | 0 <= i < |q| :: q[i].done <==> i < n
    ensures Attributed(q) == n
  {
    if n > 0 {
      AttributedIs(q[1..], n - 1);
    }
  }

  lemma EnqueuedInOrder(q: seq<Entry>, id: BondId)
    requires InOrder(q)
    ensures InOrder(q + [Entry(id, false)]) && Attributed(q + [Entry(id, false)]) == Attributed(q)
    ensures Ids(q + [Entry(id, false)]) == Ids(q) + [id]
  {
    AttributedIs(q + [Entry(id, false)], Attributed(q));
  }

  lemma DequeuedInOrder(q: seq<Entry>, n: nat)
    requires InOrder(q) && n == Attributed(q) < |q|
    ensures InOrder(q[n := Entry(q[n].id, true)]) && Attributed(q[n := Entry(q[n].id, true)]) == n + 1
    ensures Ids(q[n := Entry(q[n].id, true)]) == Ids(q)
  {
    AttributedIs(q[n := Entry(q[n].id, true)], n + 1);
  }

  // --- The class --------------------------------------------------------------------------------

  class BondQueue {
    var rows: map<TxHash, seq<Entry>>
    var agentBondGuard: set<(TxHash, ServiceId)>

    constructor ()
      ensures Valid() && rows == map[] && agentBondGuard == {}
    {
      rows, agentBondGuard := map[], {};
    }

    ghost predicate Valid()
      reads this
    {
      forall tx | tx in rows :: InOrder(rows[tx])
    }

    /** The ids enqueued for a transaction, and how many of them were handed out. */
    function Queue(tx: TxHash): (q: seq<Entry>)
      reads this
    {
      if tx in rows then rows[tx] else []
    }

    method Enqueue(tx: TxHash, id: BondId)
      requires Valid()
      modifies this`rows
      ensures Valid() && Ids(Queue(tx)) == Ids(old(Queue(tx))) + [id] && Attributed(Queue(tx)) == Attributed(old(Queue(tx)))
      ensures forall o | o != tx :: Queue(o) == old(Queue(o))
    {
      EnqueuedInOrder(Queue(tx), id);
      if tx !in rows {
        rows := rows[tx := [Entry(id, false)]];
      } else {
        rows := rows[tx := rows[tx] + [Entry(id, false)]];
      }
    }

    /** The oldest row not handed out yet: rows leave in the order they came, each once. */
    method Dequeue(tx: TxHash) returns (id: Option<BondId>)
      requires Valid()
      modifies this`rows
      ensures Valid() && Ids(Queue(tx)) == Ids(old(Queue(tx))) && forall o | o != tx :: Queue(o) == old(Queue(o))
      ensures var n := Attributed(old(Queue(tx)));
              if n < |old(Queue(tx))| then id == Some(Ids(old(Queue(tx)))[n]) && Attributed(Queue(tx)) == n + 1
              else id == None && Queue(tx) == old(Queue(tx))
    {
      if tx !in rows {
        return None;
      }
      var q := rows[tx];
      for i := 0 to |q|
        invariant rows == old(rows) && i <= Attributed(q)
      {
        if !q[i].done {
          DequeuedInOrder(q, i);
          rows := rows[tx := q[i := Entry(q[i].id, true)]];
          return Some(q[i].id);
        }
      }
      return None;
    }

    /** Like Dequeue, at most once for a transaction and a service. */
    method DequeueAgentBondOnce(tx: TxHash, service: ServiceId) returns (id: Option<BondId>)
      requires Valid()
      modifies this
      ensures Valid() && Ids(Queue(tx)) == Ids(old(Queue(tx))) && forall o | o != tx :: Queue(o) == old(Queue(o))
      ensures agentBondGuard == old(agentBondGuard) + {(tx, service)}
      ensures (tx, service) in old(agentBondGuard) ==> id == None && Queue(tx) == old(Queue(tx))
      ensures var n := Attributed(old(Queue(tx))); (tx, service) !in old(agentBondGuard) ==>
                if n < |old(Queue(tx))| then id == Some(Ids(old(Queue(tx)))[n]) && Attributed(Queue(tx)) == n + 1
                else id == None && Queue(tx) == old(Queue(tx))
    {
      if (tx, service) in agentBondGuard {
        return None;
      }
      agentBondGuard := agentBondGuard + {(tx, service)};
      id := Dequeue(tx);
    }

    method Clear()
      modifies this
      ensures Valid() && rows == map[] && agentBondGuard == {}
    {
      rows, agentBondGuard := map[], {};
    }
  }
}
