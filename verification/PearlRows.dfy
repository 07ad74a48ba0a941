/**
 The rows of Pearl's transfers told from the events alone: which role an address has, what a transfer
 counts as, when a Master Safe's setup transfer was seen, and the movements in their order.
 */
module PearlRows {
  import opened Wrappers
  import opened PearlLedger

  // --- What a transfer counts as ----------------------------------------------------------------

  function RoleOf(t: Option<Tracked>): (r: Option<Role>)
  {
    if t.Some? then Some(t.value.role) else None
  }

  /**
   What a category means, by the roles of the two ends and with no order among the categories. Other is
   what is left; a transfer to or from the SRTU has a category only if it is no Master Safe's bond leg.
   */
  predicate Means(category: Category, from: Option<Role>, to: Option<Role>, fromIsSrtu: bool, toIsSrtu: bool, registry: bool,
                  seen: bool)
  {
    match category
    case MasterToAgent => from == Some(Master) && to in {Some(Agent), Some(AgentEoa)} && !toIsSrtu
    case AgentToMaster => from == Some(Agent) && to == Some(Master) && !fromIsSrtu
    case StakingRewardClaim => from == Some(Staking) && to == Some(Agent)
    case SafeSetupTransfer => from == Some(MasterEoa) && to == Some(Master) && !fromIsSrtu && !registry && !seen
    case MasterFundingIn =>
      && to == Some(Master) && from != Some(Agent) && !fromIsSrtu && !registry
      && (from == Some(MasterEoa) ==> seen) && (from == Some(Master) ==> !toIsSrtu)
    case MasterWithdrawal => from == Some(Master) && to !in {Some(Master), Some(Agent), Some(AgentEoa)} && !toIsSrtu
    case AgentToApp => from == Some(Agent) && to != Some(Master)
    case AppToAgent => to == Some(Agent) && from !in {Some(Master), Some(Agent), Some(Staking)}
    case AgentOlasToMaster => false
    case Other => true
  }

  /** A transfer that is kept has the one category whose meaning it meets, Other only if it meets no other's. */
  lemma CategoryIff(from: Option<Tracked>, to: Option<Tracked>, fromIsSrtu: bool, toIsSrtu: bool, registry: bool, seen: bool,
                    category: Category)
    requires ClassifyTransfer(from, to, fromIsSrtu, toIsSrtu, registry, seen).Some? && category != Other
    ensures ClassifyTransfer(from, to, fromIsSrtu, toIsSrtu, registry, seen).value.category == category
            <==> Means(category, RoleOf(from), RoleOf(to), fromIsSrtu, toIsSrtu, registry, seen)
  {
  }

  /** A transfer between a service's safes and others is of that service and in the history of its Master Safe. */
  lemma CategoryOwner(from: Option<Tracked>, to: Option<Tracked>, fromIsSrtu: bool, toIsSrtu: bool, registry: bool, seen: bool)
    requires ClassifyTransfer(from, to, fromIsSrtu, toIsSrtu, registry, seen).Some?
    ensures var c := ClassifyTransfer(from, to, fromIsSrtu, toIsSrtu, registry, seen).value;
            match c.category
            case MasterToAgent => c.serviceId == to.value.serviceId && c.masterSafeId == from.value.masterSafeId
            case AgentToMaster => c.serviceId == from.value.serviceId && c.masterSafeId == Some(to.value.id)
            case StakingRewardClaim => c.serviceId == to.value.serviceId && c.masterSafeId == to.value.masterSafeId
            case AppToAgent => c.serviceId == to.value.serviceId && c.masterSafeId == to.value.masterSafeId
            case AgentToApp => c.serviceId == from.value.serviceId && c.masterSafeId == from.value.masterSafeId
            case _ => c.serviceId.None? && c.agentSafeId.None?
  {
  }

  // --- What the events say ----------------------------------------------------------------------

  /** The row an address was first tracked with. */
  function FirstTrack(events: seq<Event>, a: Address): (t: Option<Tracked>)
  {
    if events == [] then None
    else
      var last, was := events[|events| - 1], FirstTrack(events[..|events| - 1], a);
      if was.None? && last.Track? && last.row.id == a then Some(last.row) else was
  }

  /** The event is a transfer from a tracked Master EOA to a Master Safe. */
  predicate IsSetup(before: seq<Event>, e: Event, m: Address)
  {
    && e.Transfer? && e.destination == m && e.source != SRTU && e.source != SERVICE_REGISTRY_L2
    && HasRole(FirstTrack(before, m), Master) && HasRole(FirstTrack(before, e.source), MasterEoa)
  }

  predicate SetupHappened(events: seq<Event>, m: Address)
  {
    events != [] &&
    var init := events[..|events| - 1];
    SetupHappened(init, m) || IsSetup(init, events[|events| - 1], m)
  }

  /** What the transfer counts as, by the roles its ends have by then. */
  function ClassBefore(before: seq<Event>, e: Event): (c: Option<Classified>)
    requires e.Transfer?
  {
    var from, to := FirstTrack(before, e.source), FirstTrack(before, e.destination);
    var seen := HasRole(to, Master) && HasRole(from, MasterEoa) && SetupHappened(before, e.destination);
    ClassifyTransfer(from, to, e.source == SRTU, e.destination == SRTU, e.source == SERVICE_REGISTRY_L2, seen)
  }

  /** OLAS that an Agent Safe returns counts apart. */
  function CategoryFor(c: Classified, e: Event): (category: Category)
    requires e.Transfer?
  {
    if c.category == AgentToMaster && e.token == Some(OLAS) then AgentOlasToMaster else c.category
  }

  /** What a Master Safe sends a service is grouped with the rest it sends that service in the transaction. */
  function GroupFor(c: Classified, e: Event): (k: Option<FundingKey>)
    requires e.Transfer?
  {
    if c.category == MasterToAgent && c.masterSafeId.Some? && c.serviceId.Some?
    then Some((e.tx, c.masterSafeId.value, c.serviceId.value)) else None
  }

  /** The row of a transfer has its own token, amount and ends, and what it counts as. */
  function RowOf(c: Classified, e: Event): (m: Movement)
    requires e.Transfer?
  {
    Movement(CategoryFor(c, e), c.serviceId, c.masterSafeId, c.agentSafeId, GroupFor(c, e), e.token, e.amount, e.source, e.destination)
  }

  /** A row for each transfer that counts. */
  function MovementsOf(events: seq<Event>): (rows: seq<Movement>)
  {
    if events == [] then []
    else
      var init, e := events[..|events| - 1], events[|events| - 1];
      if !e.Transfer? || ClassBefore(init, e).None? then MovementsOf(init)
      else
        MovementsOf(init) + [RowOf(ClassBefore(init, e).value, e)]
  }

  // --- What the rows show -----------------------------------------------------------------------

  ghost predicate AddressShows(s: State, events: seq<Event>, a: Address)
  {
    && TrackedOf(s, a) == FirstTrack(events, a)
    && (a in s.setupSeen <==> HasRole(FirstTrack(events, a), Master))
    && (a in s.setupSeen ==> s.setupSeen[a] == SetupHappened(events, a))
    && (SetupHappened(events, a) ==> HasRole(FirstTrack(events, a), Master))
  }

  ghost predicate Shows(s: State, events: seq<Event>)
  {
    (forall a :: AddressShows(s, events, a)) && s.movements == MovementsOf(events)
  }

  lemma ClassShows(s: State, events: seq<Event>, e: Event)
    requires Shows(s, events) && e.Transfer?
    ensures ClassOf(s, e.source, e.destination) == ClassBefore(events, e)
  {
    assert AddressShows(s, events, e.source) && AddressShows(s, events, e.destination);
  }

  lemma SetupIsCategory(s: State, events: seq<Event>, e: Event)
    requires Shows(s, events) && RowsPossible(s) && e.Transfer? && ClassOf(s, e.source, e.destination).Some?
    ensures var c := ClassOf(s, e.source, e.destination).value;
            (c.category == SafeSetupTransfer <==> IsSetup(events, e, e.destination) && !SetupHappened(events, e.destination))
            && (c.category == SafeSetupTransfer ==> c.masterSafeId == Some(e.destination))
  {
    ClassShows(s, events, e);
    assert AddressShows(s, events, e.source) && AddressShows(s, events, e.destination);
  }

  lemma SetupIsClassified(s: State, events: seq<Event>, e: Event)
    requires Shows(s, events) && e.Transfer? && IsSetup(events, e, e.destination)
    ensures ClassOf(s, e.source, e.destination).Some?
  {
    assert AddressShows(s, events, e.source) && AddressShows(s, events, e.destination);
  }

  lemma StepAddress(s: State, events: seq<Event>, a: Address)
    requires events != [] && Shows(s, events[..|events| - 1]) && RowsPossible(s)
    ensures AddressShows(Step(s, events[|events| - 1]), events, a)
  {
    var init, e := events[..|events| - 1], events[|events| - 1];
    assert AddressShows(s, init, a);
    if e.Transfer? {
      if ClassOf(s, e.source, e.destination).Some? {
        SetupIsCategory(s, init, e);
      }
      if IsSetup(init, e, e.destination) {
        SetupIsClassified(s, init, e);
      }
      assert AddressShows(s, init, e.destination);
    }
  }

  lemma TransferMovements(s: State, e: Event)
    requires e.Transfer?
    ensures var o := ClassOf(s, e.source, e.destination);
            Step(s, e).movements == if o.None? then s.movements else s.movements + [RowOf(o.value, e)]
  {
  }

  lemma OtherMovements(s: State, e: Event)
    requires !e.Transfer?
    ensures Step(s, e).movements == s.movements
  {
  }

  lemma StepMovements(s: State, events: seq<Event>)
    requires events != [] && Shows(s, events[..|events| - 1])
    ensures Step(s, events[|events| - 1]).movements == MovementsOf(events)
  {
    var e := events[|events| - 1];
    if e.Transfer? {
      ClassShows(s, events[..|events| - 1], e);
      TransferMovements(s, e);
    } else {
      OtherMovements(s, e);
    }
  }

  /**
   After any run an address has the role it was first tracked with, a Master Safe's setup is seen exactly
   when a Master EOA has sent it something, and the movements are the transfers that count, in order, each
   with its own token, amount and ends and as what the roles by then make it.
   */
  lemma {:induction false} RunShows(events: seq<Event>)
    requires Possible(events)
    ensures Shows(Run(events), events)
  {
    if events != [] {
      var init := events[..|events| - 1];
      RunShows(init);
      RowsArePossible(init);
      forall a
        ensures AddressShows(Run(events), events, a)
      {
        StepAddress(Run(init), events, a);
      }
      StepMovements(Run(init), events);
    }
  }

  /** So a Master Safe has one setup transfer in its history if a Master EOA ever sent it something, else none. */
  lemma SetupTransferIff(events: seq<Event>, m: Address)
    requires Possible(events)
    ensures SetupTransfers(Run(events).movements, m) == if SetupHappened(events, m) then 1 else 0
  {
    RunShows(events);
    SetupTransferOnce(events, m);
    assert AddressShows(Run(events), events, m);
  }

  // --- Every balance ----------------------------------------------------------------------------

  /** Whether the destination of a transfer is credited, by the roles of its ends. */
  predicate Takes(before: seq<Event>, e: Event)
    requires e.Transfer?
  {
    var from := RoleOf(FirstTrack(before, e.source));
    match RoleOf(FirstTrack(before, e.destination))
    case Some(Master) => e.source != SRTU && e.source != SERVICE_REGISTRY_L2
    case Some(Agent) => from != Some(Agent)
    case Some(AgentEoa) => from == Some(Master)
    case _ => false
  }

  /** Whether the source of a transfer is debited. */
  predicate Gives(before: seq<Event>, e: Event)
    requires e.Transfer?
  {
    match RoleOf(FirstTrack(before, e.source))
    case Some(Master) => e.destination != SRTU
    case Some(Agent) => true
    case _ => false
  }

  /** What an event pays an address in a token less what it takes from it. */
  function PaidTo(before: seq<Event>, e: Event, a: Address, t: Token): (d: int)
  {
    match e
    case Track(_) => 0
    case Transfer(_, from, to, amount, token) =>
      if token != Some(t) then 0
      else (if to == a && Takes(before, e) then amount else 0) - (if from == a && Gives(before, e) then amount else 0)
    case Deposit(account, bond, amount) =>
      if account == a && bond == t && HasRole(FirstTrack(before, a), Master) then -(amount as int) else 0
    case Refund(account, bond, amount) =>
      if account == a && bond == t && HasRole(FirstTrack(before, a), Master) then amount else 0
  }

  function Ledger(events: seq<Event>, a: Address, t: Token): (b: int)
  {
    if events == [] then 0
    else
      var init := events[..|events| - 1];
      Ledger(init, a, t) + PaidTo(init, events[|events| - 1], a, t)
  }

  lemma TransferPays(s: State, events: seq<Event>, e: Event, a: Address, t: Token)
    requires Shows(s, events) && RowsPossible(s) && e.Transfer? && a != SRTU && a != SERVICE_REGISTRY_L2
    ensures BalanceOf(Step(s, e).balances, a, t) == BalanceOf(s.balances, a, t) + PaidTo(events, e, a, t)
  {
    assert AddressShows(s, events, e.source) && AddressShows(s, events, e.destination);
    TransferGain(s, e.tx, e.source, e.destination, e.amount, e.token, a, t);
    GainIs(s, events, e, a);
  }

  /** What a transfer books at an address, by the roles of the ends. */
  lemma GainIs(s: State, events: seq<Event>, e: Event, a: Address)
    requires Shows(s, events) && RowsPossible(s) && e.Transfer? && a != SRTU && a != SERVICE_REGISTRY_L2
    ensures var taken := if e.destination == a && Takes(events, e) then e.amount else 0;
            var given := if e.source == a && Gives(events, e) then e.amount else 0;
            var g := taken - given;
            match ClassOf(s, e.source, e.destination)
            case None => g == 0
            case Some(c) => g == Gain(CategoryOf(c, e.token), c.senderMasterId.Some?, e.source == a, e.destination == a, e.amount)
  {
    assert AddressShows(s, events, e.source) && AddressShows(s, events, e.destination);
    assert !HasRole(TrackedOf(s, SERVICE_REGISTRY_L2), Agent);
  }

  lemma BondPays(s: State, events: seq<Event>, e: Event, a: Address, t: Token)
    requires Shows(s, events) && RowsPossible(s) && (e.Deposit? || e.Refund?)
    ensures BalanceOf(Step(s, e).balances, a, t) == BalanceOf(s.balances, a, t) + PaidTo(events, e, a, t)
  {
    assert AddressShows(s, events, e.account);
  }

  /**
   Every balance row, of whatever role, is what the events paid its address less what they took: Master
   Safes all but bond legs and what the registry sends, Agent Safes all but what Agent Safes send, agent
   EOAs what Master Safes send, and no one else anything.
   */
  lemma {:induction false} BalanceIsLedger(events: seq<Event>, a: Address, t: Token)
    requires Possible(events) && a != SRTU && a != SERVICE_REGISTRY_L2
    ensures BalanceOf(Run(events).balances, a, t) == Ledger(events, a, t)
  {
    if events != [] {
      var init, e := events[..|events| - 1], events[|events| - 1];
      BalanceIsLedger(init, a, t);
      RunShows(init);
      RowsArePossible(init);
      if e.Transfer? {
        TransferPays(Run(init), init, e, a, t);
      } else if e.Deposit? || e.Refund? {
        BondPays(Run(init), init, e, a, t);
      }
    }
  }
}
