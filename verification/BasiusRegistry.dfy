/**
 What the babydegen squid knows of its services, told from the logs alone: whose operator is recorded,
 which multisigs are services, and which addresses are Safe hosts.
 */
module BasiusRegistry {
  import opened Wrappers
  import opened BasiusHandlers
  import opened BasiusBlock
  import opened BasiusSources

  const EMPTY := State(map[], map[], map[], {}, [])

  // --- What the logs say ------------------------------------------------------------------------

  /** The log registers an instance of the agent for a service that is not excluded. */
  predicate Registers(c: Config, l: Log)
  {
    && l.address == c.registry && l.topic == RegisterTopic && l.decodes && l.params.Register?
    && l.params.agentId == c.basiusAgentId && l.params.serviceId !in c.excluded
  }

  /** The operator of the last registration of a service. */
  function OperatorOf(c: Config, logs: seq<Log>, id: ServiceId): (a: Option<Address>)
  {
    if logs == [] then None
    else
      var last := logs[|logs| - 1];
      if Registers(c, last) && last.params.serviceId == id then Some(last.params.operator)
      else OperatorOf(c, logs[..|logs| - 1], id)
  }

  /** The log creates a multisig for a service registered before it. */
  predicate Creates(c: Config, before: seq<Log>, l: Log)
  {
    && l.address == c.registry && l.topic == CreateTopic && l.decodes && l.params.Create?
    && l.params.createdId !in c.excluded && OperatorOf(c, before, l.params.createdId).Some?
  }

  predicate IsService(c: Config, logs: seq<Log>, m: Address)
  {
    logs != [] &&
    var init, last := logs[..|logs| - 1], logs[|logs| - 1];
    IsService(c, init, m) || (Creates(c, init, last) && last.params.multisig == m)
  }

  /** The multisig a service id stands for: that of its last creation, but the first must be of a new multisig. */
  function MultisigOf(c: Config, logs: seq<Log>, id: ServiceId): (m: Option<Address>)
  {
    if logs == [] then None
    else
      var init, last := logs[..|logs| - 1], logs[|logs| - 1];
      var was := MultisigOf(c, init, id);
      if Creates(c, init, last) && last.params.createdId == id && (was.Some? || !IsService(c, init, last.params.multisig))
      then Some(last.params.multisig)
      else was
  }

  /** The operator of a service: the last one registered for its id, or before its creation for the id it was created for. */
  function OperatorOfService(c: Config, logs: seq<Log>, m: Address): (a: Option<Address>)
  {
    if logs == [] then None
    else
      var init, last := logs[..|logs| - 1], logs[|logs| - 1];
      if Creates(c, init, last) && last.params.multisig == m then OperatorOf(c, init, last.params.createdId)
      else if Registers(c, last) && MultisigOf(c, init, last.params.serviceId) == Some(m) then Some(last.params.operator)
      else OperatorOfService(c, init, m)
  }

  /** A Safe host is the multisig of a new service, or the operator it was created under. */
  predicate IsHost(c: Config, logs: seq<Log>, a: Address)
  {
    logs != [] &&
    var init, last := logs[..|logs| - 1], logs[|logs| - 1];
    || IsHost(c, init, a)
    || (Creates(c, init, last) && !IsService(c, init, last.params.multisig)
        && (a == last.params.multisig || OperatorOf(c, init, last.params.createdId) == Some(a)))
  }

  // --- What the state shows ---------------------------------------------------------------------

  function At<K, V>(m: map<K, V>, k: K): (v: Option<V>)
  {
    if k in m then Some(m[k]) else None
  }

  ghost predicate IdShows(c: Config, s: State, logs: seq<Log>, id: ServiceId)
  {
    && At(s.registrations, id) == OperatorOf(c, logs, id) && At(s.serviceIndex, id) == MultisigOf(c, logs, id)
    && (id in s.serviceIndex ==> s.serviceIndex[id] in s.services)
  }

  ghost predicate AddressShows(c: Config, s: State, logs: seq<Log>, a: Address)
  {
    && At(s.services, a) == OperatorOfService(c, logs, a) && (a in s.services <==> IsService(c, logs, a))
    && (a in s.hosts <==> IsHost(c, logs, a))
  }

  ghost predicate Shows(c: Config, s: State, logs: seq<Log>)
  {
    (forall id :: IdShows(c, s, logs, id)) && forall a :: AddressShows(c, s, logs, a)
  }

  lemma IdShowsNext(c: Config, s: State, logs: seq<Log>, id: ServiceId)
    requires logs != [] && Shows(c, s, logs[..|logs| - 1])
    ensures IdShows(c, Dispatch(c, s, logs[|logs| - 1]), logs, id)
  {
    var init, last := logs[..|logs| - 1], logs[|logs| - 1];
    assert IdShows(c, s, init, id);
    if Registers(c, last) {
      assert IdShows(c, s, init, last.params.serviceId);
    } else if last.params.Create? {
      assert IdShows(c, s, init, last.params.createdId);
      assert AddressShows(c, s, init, last.params.multisig);
    }
  }

  lemma AddressShowsNext(c: Config, s: State, logs: seq<Log>, a: Address)
    requires logs != [] && Shows(c, s, logs[..|logs| - 1])
    ensures AddressShows(c, Dispatch(c, s, logs[|logs| - 1]), logs, a)
  {
    var init, last := logs[..|logs| - 1], logs[|logs| - 1];
    assert AddressShows(c, s, init, a);
    if Registers(c, last) {
      assert IdShows(c, s, init, last.params.serviceId);
    } else if last.params.Create? {
      assert IdShows(c, s, init, last.params.createdId);
      assert AddressShows(c, s, init, last.params.multisig);
    }
  }

  /**
   After any logs, whatever else is among them: the operator recorded for a service id is that of its last
   registration, the services are the multisigs created for registered ids, each under the operator last
   recorded for it, and the Safe hosts are exactly those multisigs and the operators they were created under.
   */
  lemma {:induction false} RunShows(c: Config, logs: seq<Log>)
    ensures Shows(c, RunAll(c, EMPTY, logs), logs)
  {
    if logs != [] {
      var init, last := logs[..|logs| - 1], logs[|logs| - 1];
      RunShows(c, init);
      var n := RunAll(c, EMPTY, logs);
      forall id
        ensures IdShows(c, n, logs, id)
      {
        IdShowsNext(c, RunAll(c, EMPTY, init), logs, id);
      }
      forall a
        ensures AddressShows(c, n, logs, a)
      {
        AddressShowsNext(c, RunAll(c, EMPTY, init), logs, a);
      }
    }
  }

  // --- The chain --------------------------------------------------------------------------------

  /** The same but for the handler runs. */
  predicate SameRegistry(s: State, t: State)
  {
    s == t.(trace := s.trace)
  }

  lemma DispatchSame(c: Config, s: State, t: State, l: Log)
    requires SameRegistry(s, t)
    ensures SameRegistry(Dispatch(c, s, l), Dispatch(c, t, l))
    ensures IsSafeTopic(l) ==> SameRegistry(s, Dispatch(c, t, l))
  {
  }

  lemma {:induction false} RunAllSame(c: Config, s: State, t: State, logs: seq<Log>)
    requires SameRegistry(s, t)
    ensures SameRegistry(RunAll(c, s, logs), RunAll(c, t, logs))
    ensures (forall l | l in logs :: IsSafeTopic(l)) ==> SameRegistry(RunAll(c, s, logs), t)
  {
    if logs != [] {
      var init, last := logs[..|logs| - 1], logs[|logs| - 1];
      RunAllSame(c, s, t, init);
      DispatchSame(c, RunAll(c, s, init), RunAll(c, t, init), last);
      assert logs == init + [last];
    }
  }

  lemma {:induction false} InPlaceSame(c: Config, s: State, t: State, hosts: set<Address>, logs: seq<Log>)
    requires SameRegistry(s, t)
    ensures SameRegistry(InPlace(c, s, hosts, logs), RunAll(c, t, logs))
  {
    if logs != [] {
      var init, last := logs[..|logs| - 1], logs[|logs| - 1];
      InPlaceSame(c, s, t, hosts, init);
      DispatchSame(c, InPlace(c, s, hosts, init), RunAll(c, t, init), last);
    }
  }

  lemma BlockSame(c: Config, s: State, t: State, block: seq<Log>)
    requires SameRegistry(s, t)
    ensures SameRegistry(BlockSpec(c, s, block), RunAll(c, t, block))
  {
    var mid := InPlace(c, s, s.hosts, block);
    InPlaceSame(c, s, t, s.hosts, block);
    RunAllSame(c, mid, RunAll(c, t, block), Filter(block, l => HostLog(mid.hosts - s.hosts, l)));
  }

  function Concat(chain: seq<seq<Log>>): (logs: seq<Log>)
  {
    if chain == [] then [] else Concat(chain[..|chain| - 1]) + chain[|chain| - 1]
  }

  lemma {:induction false} RunAllConcat(c: Config, s: State, a: seq<Log>, b: seq<Log>)
    ensures RunAll(c, s, a + b) == RunAll(c, RunAll(c, s, a), b)
    decreases |b|
  {
    if b == [] {
      assert a + b == a;
    } else {
      assert (a + b)[..|a + b| - 1] == a + b[..|b| - 1];
      RunAllConcat(c, s, a, b[..|b| - 1]);
    }
  }

  lemma {:induction false} ChainSame(c: Config, s: State, chain: seq<seq<Log>>)
    ensures SameRegistry(RunBlocks(c, s, chain), RunAll(c, s, Concat(chain)))
  {
    if chain != [] {
      var init, last := chain[..|chain| - 1], chain[|chain| - 1];
      ChainSame(c, s, init);
      RunAllConcat(c, s, Concat(init), last);
      BlockSame(c, RunBlocks(c, s, init), RunAll(c, s, Concat(init)), last);
    }
  }

  /** So what an indexed chain leaves is told from its logs. */
  lemma ChainShows(c: Config, chain: seq<seq<Log>>)
    ensures Shows(c, RunBlocks(c, EMPTY, chain), Concat(chain))
  {
    var s, t := RunBlocks(c, EMPTY, chain), RunAll(c, EMPTY, Concat(chain));
    ChainSame(c, EMPTY, chain);
    RunShows(c, Concat(chain));
    forall id
      ensures IdShows(c, s, Concat(chain), id)
    {
      assert IdShows(c, t, Concat(chain), id);
    }
    forall a
      ensures AddressShows(c, s, Concat(chain), a)
    {
      assert AddressShows(c, t, Concat(chain), a);
    }
  }
}
