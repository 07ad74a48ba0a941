/**
 The registry, token and Safe handlers of squids/babydegen, as far as they decide which later logs
 are handled: registrations, services and Safe hosts. `trace` records the handler runs that have an
 effect; every other row a handler writes is a function of that trace.
 */
module BasiusHandlers {
  type Address = nat
  type ServiceId = nat

  datatype Topic = RegisterTopic | CreateTopic | TransferTopic | ReceivedTopic | ExecutionTopic | ModuleExecutionTopic | OtherTopic

  datatype Params =
    | Register(operator: Address, serviceId: ServiceId, agentId: nat)
    | Create(createdId: ServiceId, multisig: Address)
    | Transfer(from: Address, to: Address)
    | Safe(sender: Address)
    | NoParams

  /** `decodes` is whether the log's topics and data fit the handler's event signature. */
  datatype Log = Log(address: Address, index: nat, topic: Topic, params: Params, decodes: bool)

  datatype Config = Config(registry: Address, tokens: set<Address>, basiusAgentId: nat, excluded: set<ServiceId>)

  datatype State = State(
    registrations: map<ServiceId, Address>,
    services: map<Address, Address>,
    serviceIndex: map<ServiceId, Address>,
    hosts: set<Address>,
    trace: seq<Log>)

  predicate IsSafeTopic(l: Log)
  {
    l.topic == ReceivedTopic || l.topic == ExecutionTopic || l.topic == ModuleExecutionTopic
  }

  function Ran(s: State, l: Log): State
  {
    s.(trace := s.trace + [l])
  }

  // --- The handlers as functions of the state ---------------------------------------------------

  function RegisterInstance(c: Config, s: State, l: Log): State
    requires l.params.Register?
  {
    var e := l.params;
    if e.agentId != c.basiusAgentId || e.serviceId in c.excluded then s
    else
      var s1 := Ran(s, l).(registrations := s.registrations[e.serviceId := e.operator]);
      if e.serviceId in s.serviceIndex && s.serviceIndex[e.serviceId] in s.services then
        s1.(services := s.services[s.serviceIndex[e.serviceId] := e.operator])
      else s1
  }

  function CreateMultisig(c: Config, s: State, l: Log): State
    requires l.params.Create?
  {
    var e := l.params;
    if e.createdId in c.excluded || e.createdId !in s.registrations then s
    else
      var operator := s.registrations[e.createdId];
      var s1 := Ran(s, l).(services := s.services[e.multisig := operator]);
      if e.multisig in s.services then
        if e.createdId in s.serviceIndex then s1.(serviceIndex := s.serviceIndex[e.createdId := e.multisig]) else s1
      else
        s1.(serviceIndex := s.serviceIndex[e.createdId := e.multisig], hosts := s.hosts + {e.multisig, operator})
  }

  /** Routes a log to its handler, with graph-node's matching rules. */
  function Dispatch(c: Config, s: State, l: Log): State
  {
    if l.address == c.registry then
      if l.topic == RegisterTopic && l.decodes && l.params.Register? then RegisterInstance(c, s, l)
      else if l.topic == CreateTopic && l.decodes && l.params.Create? then CreateMultisig(c, s, l)
      else s
    else if l.topic == TransferTopic && l.address in c.tokens then
      if l.decodes && l.params.Transfer? && (l.params.to in s.services || l.params.from in s.services) then Ran(s, l)
      else s
    else if IsSafeTopic(l) && l.address in s.hosts && l.decodes then Ran(s, l)
    else s
  }

  /** The Safe a handled log turns into a new Service, if any. */
  function NewServices(c: Config, s: State, l: Log): (r: seq<Address>)
  {
    if l.params.Create? && Dispatch(c, s, l).services.Keys != s.services.Keys then [l.params.multisig] else []
  }

  /** The Safe hosts a handled log creates, in creation order. */
  function SpawnedSafes(c: Config, s: State, l: Log): (r: seq<Address>)
  {
    if NewServices(c, s, l) == [] then []
    else
      var operator := Dispatch(c, s, l).services[l.params.multisig];
      (if l.params.multisig in s.hosts then [] else [l.params.multisig]) +
      (if operator in s.hosts || operator == l.params.multisig then [] else [operator])
  }

  /** Only the creation of a Service adds services and hosts, and it adds exactly the announced ones. */
  lemma DispatchGrowth(c: Config, s: State, l: Log)
    ensures var t := Dispatch(c, s, l);
            && t.services.Keys == s.services.Keys + (set a | a in NewServices(c, s, l))
            && t.hosts == s.hosts + (set a | a in SpawnedSafes(c, s, l))
            && (forall a | a in SpawnedSafes(c, s, l) :: a !in s.hosts)
            && (forall a | a in NewServices(c, s, l) :: a !in s.services)
            && (NewServices(c, s, l) == [] ==> SpawnedSafes(c, s, l) == [])
            && (NewServices(c, s, l) != [] ==> l.address == c.registry && l.topic == CreateTopic)
  {
    var t := Dispatch(c, s, l);
    if t.services.Keys != s.services.Keys {
      assert l.params.Create? && t.services.Keys == s.services.Keys + {l.params.multisig};
      assert l.params.multisig !in s.services;
    }
  }

  // --- The handlers as they run -----------------------------------------------------------------

  class Ctx {
    var registrations: map<ServiceId, Address>
    var services: map<Address, Address>
    var serviceIndex: map<ServiceId, Address>
    var hosts: set<Address>
    var trace: seq<Log>
    /** Safe instances created by the current log, in creation order. */
    var spawnedSafes: seq<Address>
    /** Service safes created by the current log. */
    var newServices: seq<Address>

    function View(): State
      reads this
    {
      State(registrations, services, serviceIndex, hosts, trace)
    }

    constructor ()
      ensures View() == State(map[], map[], map[], {}, []) && spawnedSafes == [] && newServices == []
    {
      registrations, services, serviceIndex, hosts, trace := map[], map[], map[], {}, [];
      spawnedSafes, newServices := [], [];
    }

    /** A second instance at a known address is dropped. */
    method CreateSafeDataSource(address: Address)
      modifies this`hosts, this`spawnedSafes
      ensures hosts == old(hosts) + {address}
      ensures spawnedSafes == old(spawnedSafes) + if address in old(hosts) then [] else [address]
    {
      if address in hosts {
        return;
      }
      hosts := hosts + {address};
      spawnedSafes := spawnedSafes + [address];
    }

    method HandleRegisterInstance(c: Config, l: Log)
      requires l.params.Register?
      modifies this
      ensures View() == RegisterInstance(c, old(View()), l)
      ensures unchanged(`spawnedSafes) && unchanged(`newServices)
    {
      var e := l.params;
      if e.agentId != c.basiusAgentId || e.serviceId in c.excluded {
        return;
      }
      trace := trace + [l];
      registrations := registrations[e.serviceId := e.operator];
      if e.serviceId in serviceIndex && serviceIndex[e.serviceId] in services {
        services := services[serviceIndex[e.serviceId] := e.operator];
      }
    }

    method HandleCreateMultisig(c: Config, l: Log)
      requires l.params.Create?
      modifies this
      ensures View() == CreateMultisig(c, old(View()), l)
      ensures l.address == c.registry && l.topic == CreateTopic && l.decodes ==>
                && spawnedSafes == old(spawnedSafes) + SpawnedSafes(c, old(View()), l)
                && newServices == old(newServices) + NewServices(c, old(View()), l)
    {
      var e := l.params;
      ghost var s := View();
      if e.createdId in c.excluded || e.createdId !in registrations {
        assert CreateMultisig(c, s, l) == s;
        return;
      }
      var operator := registrations[e.createdId];
      trace := trace + [l];
      var existing := e.multisig in services;
      services := services[e.multisig := operator];
      assert existing ==> services.Keys == old(services).Keys;
      assert !existing ==> e.multisig in services.Keys && e.multisig !in old(services).Keys;
      if existing {
        if e.createdId in serviceIndex {
          serviceIndex := serviceIndex[e.createdId := e.multisig];
        }
        return;
      }
      newServices := newServices + [e.multisig];
      serviceIndex := serviceIndex[e.createdId := e.multisig];
      CreateSafeDataSource(e.multisig);
      CreateSafeDataSource(operator);
      assert hosts == s.hosts + {e.multisig, operator};
    }

    method Handle(c: Config, l: Log)
      modifies this
      ensures View() == Dispatch(c, old(View()), l)
      ensures spawnedSafes == old(spawnedSafes) + SpawnedSafes(c, old(View()), l)
      ensures newServices == old(newServices) + NewServices(c, old(View()), l)
    {
      ghost var s := View();
      DispatchGrowth(c, s, l);
      if l.address == c.registry {
        if l.topic == RegisterTopic {
          if l.decodes && l.params.Register? {
            HandleRegisterInstance(c, l);
          }
        } else if l.topic == CreateTopic {
          if l.decodes && l.params.Create? {
            HandleCreateMultisig(c, l);
          }
        }
        return;
      }
      if l.topic == TransferTopic && l.address in c.tokens {
        if l.decodes && l.params.Transfer? && (l.params.to in services || l.params.from in services) {
          trace := trace + [l];
        }
        return;
      }
      if !IsSafeTopic(l) || l.address !in hosts {
        return;
      }
      if l.decodes {
        trace := trace + [l];
      }
    }
  }
}
