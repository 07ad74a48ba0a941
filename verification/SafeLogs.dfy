/**
 Which Safe logs of a block are handled, and when: squids/service-registry/src/safeLogs.ts and the rows
 and known-set entries handleCreateMultisig makes.
 */
module SafeLogs {
  type Address = nat

  datatype Log = Log(address: Address, index: nat)

  /** What a block brings: a multisig created for a service that exists or not, or the log of a Safe. */
  datatype Event = Create(multisig: Address, serviceExists: bool) | Safe(log: Log)

  // --- What graph-node's templates would handle -------------------------------------------------

  /** The block's Safe logs from the given addresses, in log order. */
  function LogsOf(events: seq<Event>, addresses: set<Address>): (logs: seq<Log>)
  {
    if events == [] then []
    else
      var init, last := LogsOf(events[..|events| - 1], addresses), events[|events| - 1];
      if last.Safe? && last.log.address in addresses then init + [last.log] else init
  }

  /** The multisigs the block gives a row to. */
  function Registered(events: seq<Event>): (r: set<Address>)
  {
    set i | 0 <= i < |events| && events[i].Create? && events[i].serviceExists :: events[i].multisig
  }

  /** Safes with a row before the block in log order, then those first registered in it, with their earlier logs. */
  function Expected(before: set<Address>, events: seq<Event>): (logs: seq<Log>)
  {
    LogsOf(events, before) + LogsOf(events, Registered(events) - before)
  }

  /** Each log of those Safes once, and no others. */
  lemma {:induction false} LogsOfSplit(events: seq<Event>, a: set<Address>, b: set<Address>)
    requires a !! b
    ensures multiset(LogsOf(events, a)) + multiset(LogsOf(events, b)) == multiset(LogsOf(events, a + b))
  {
    if events != [] {
      LogsOfSplit(events[..|events| - 1], a, b);
    }
  }

  lemma ExpectedOnce(before: set<Address>, events: seq<Event>)
    ensures multiset(Expected(before, events)) == multiset(LogsOf(events, before + Registered(events)))
  {
    LogsOfSplit(events, before, Registered(events) - before);
    assert before + (Registered(events) - before) == before + Registered(events);
  }

  lemma RegisteredNext(events: seq<Event>, i: nat)
    requires i < |events|
    ensures Registered(events[..i + 1]) == Registered(events[..i]) +
              (if events[i].Create? && events[i].serviceExists then {events[i].multisig} else {})
  {
    var done := events[..i + 1];
    assert done == events[..i] + [events[i]];
    forall a | a in Registered(events[..i])
      ensures a in Registered(done)
    {
      var j :| 0 <= j < i && events[..i][j].Create? && events[..i][j].serviceExists && events[..i][j].multisig == a;
      assert done[j].multisig == a;
    }
    if events[i].Create? && events[i].serviceExists {
      assert done[i].multisig == events[i].multisig;
    }
  }

  // --- The class --------------------------------------------------------------------------------

  /** The block's Safe logs from other addresses, in log order. */
  function OtherLogs(events: seq<Event>, addresses: set<Address>): (logs: seq<Log>)
  {
    if events == [] then []
    else
      var init, last := OtherLogs(events[..|events| - 1], addresses), events[|events| - 1];
      if last.Safe? && last.log.address !in addresses then init + [last.log] else init
  }

  function Only(logs: seq<Log>, addresses: set<Address>): (r: seq<Log>)
  {
    if logs == [] then []
    else Only(logs[..|logs| - 1], addresses) + (if logs[|logs| - 1].address in addresses then [logs[|logs| - 1]] else [])
  }

  lemma OnlyNext(logs: seq<Log>, log: Log, addresses: set<Address>)
    ensures Only(logs + [log], addresses) == if log.address in addresses then Only(logs, addresses) + [log] else Only(logs, addresses)
  {
    assert (logs + [log])[..|logs|] == logs;
  }

  /** What is parked of the addresses first seen in the block are all their logs. */
  lemma {:induction false} OnlyOfOthers(events: seq<Event>, before: set<Address>, firstSeen: set<Address>)
    requires before !! firstSeen
    ensures Only(OtherLogs(events, before), firstSeen) == LogsOf(events, firstSeen)
  {
    if events != [] {
      var init, last := events[..|events| - 1], events[|events| - 1];
      OnlyOfOthers(init, before, firstSeen);
      if last.Safe? {
        OnlyNext(OtherLogs(init, before), last.log, firstSeen);
      }
    }
  }

  /** `rows` and `known` are the store's Multisig rows and the process-wide set of known multisigs. */
  class BlockSafeLogs {
    var rows: set<Address>
    var known: set<Address>
    var firstSeen: set<Address>
    var parked: seq<Log>
    var handled: seq<Log>

    constructor (rows: set<Address>, known: set<Address>)
      ensures this.rows == rows && this.known == known && firstSeen == {} && parked == [] && handled == []
    {
      this.rows, this.known, firstSeen, parked, handled := rows, known, {}, [], [];
    }

    /** What is known of an open block: its rows before, and its events so far. */
    ghost predicate Inside(before: set<Address>, events: seq<Event>, handled0: seq<Log>)
      reads this
    {
      && rows <= known && rows == before + Registered(events) && firstSeen == Registered(events) - before
      && parked == OtherLogs(events, before) && handled == handled0 + LogsOf(events, before)
    }

    /** handleCreateMultisig, for what it does to the rows and the known set. */
    method HandleCreateMultisig(multisig: Address, serviceExists: bool)
      modifies this`rows, this`known
      ensures rows == old(rows) + (if serviceExists then {multisig} else {})
      ensures known == old(known) + (if serviceExists then {multisig} else {})
    {
      if serviceExists {
        known := known + {multisig};
        rows := rows + {multisig};
      }
    }

    method CreateMultisig(multisig: Address, serviceExists: bool)
      modifies this
      ensures rows == old(rows) + (if serviceExists then {multisig} else {})
      ensures known == old(known) + (if serviceExists then {multisig} else {})
      ensures firstSeen == old(firstSeen) + (rows - old(rows)) && parked == old(parked) && handled == old(handled)
    {
      var hadRow := multisig in rows;
      HandleCreateMultisig(multisig, serviceExists);
      if !hadRow && multisig in rows {
        firstSeen := firstSeen + {multisig};
      }
    }

    /** handleSafeExecution, for which logs it is run on. */
    method Handle(log: Log)
      modifies this`handled
      ensures handled == old(handled) + [log]
    {
      handled := handled + [log];
    }

    method SafeLog(log: Log)
      requires rows <= known
      modifies this`parked, this`handled
      ensures log.address in rows - firstSeen ==> parked == old(parked) && handled == old(handled) + [log]
      ensures log.address !in rows - firstSeen ==> parked == old(parked) + [log] && handled == old(handled)
    {
      if log.address !in known {
        parked := parked + [log];
        return;
      }
      if log.address !in firstSeen && log.address in rows {
        Handle(log);
      } else {
        parked := parked + [log];
      }
    }

    method EndBlock()
      modifies this`parked, this`firstSeen, this`handled
      ensures parked == [] && firstSeen == {} && handled == old(handled) + Only(old(parked), old(firstSeen))
    {
      var logs, addresses := parked, firstSeen;
      parked, firstSeen := [], {};
      for i := 0 to |logs|
        invariant parked == [] && firstSeen == {} && handled == old(handled) + Only(logs[..i], addresses)
      {
        assert logs[..i + 1][..i] == logs[..i];
        if logs[i].address in addresses {
          Handle(logs[i]);
        }
      }
      assert logs[..|logs|] == logs;
    }

    /** One event of an open block. */
    method HandleEvent(events: seq<Event>, i: nat, ghost before: set<Address>, ghost handled0: seq<Log>)
      requires i < |events| && Inside(before, events[..i], handled0)
      modifies this
      ensures Inside(before, events[..i + 1], handled0)
    {
      RegisteredNext(events, i);
      assert events[..i + 1][..i] == events[..i];
      match events[i]
      case Create(multisig, serviceExists) => CreateMultisig(multisig, serviceExists);
      case Safe(log) => SafeLog(log);
    }

    /** One block's events in log order. */
    method Block(events: seq<Event>)
      requires rows <= known && firstSeen == {} && parked == []
      modifies this
      ensures handled == old(handled) + Expected(old(rows), events)
      ensures rows == old(rows) + Registered(events) && rows <= known && firstSeen == {} && parked == []
    {
      ghost var before, handled0 := rows, handled;
      for i := 0 to |events|
        invariant Inside(before, events[..i], handled0)
      {
        HandleEvent(events, i, before, handled0);
      }
      assert events[..|events|] == events;
      OnlyOfOthers(events, before, firstSeen);
      EndBlock();
    }
  }
}
