/**
 Token balances of Pearl's safes: classifyTransfer of squids/pearl-transactions/src/logic.ts and the
 handlers of handlers.ts that write TokenBalance rows.
 */
module PearlLedger {
  import opened Wrappers

  type Address = nat
  type Token = nat
  type ServiceId = nat
  type TxHash = nat

  datatype Role = Master | Agent | MasterEoa | AgentEoa | Staking

  /** A row of the tracked-address table. */
  datatype Tracked = Tracked(id: Address, role: Role, masterSafeId: Option<Address>, serviceId: Option<ServiceId>)

  /** ServiceRegistryTokenUtility and ServiceRegistryL2 stand for two addresses of the chain. */
  const SRTU: Address := 0
  const SERVICE_REGISTRY_L2: Address := 1

  const OLAS: Token := 0

  // --- classifyTransfer -------------------------------------------------------------------------

  datatype Category =
    | MasterToAgent | AgentToMaster | AgentOlasToMaster | StakingRewardClaim | SafeSetupTransfer | MasterFundingIn
    | MasterWithdrawal | AgentToApp | AppToAgent | Other

  datatype Classified = Classified(category: Category, serviceId: Option<ServiceId>, masterSafeId: Option<Address>,
                                   agentSafeId: Option<Address>, senderMasterId: Option<Address>)

  predicate HasRole(t: Option<Tracked>, role: Role)
  {
    t.Some? && t.value.role == role
  }

  function Result(category: Category, serviceId: Option<ServiceId>, masterSafeId: Option<Address>,
                  agentSafeId: Option<Address>): (c: Option<Classified>)
  {
    Some(Classified(category, serviceId, masterSafeId, agentSafeId, None))
  }

  function ClassifyTransfer(from: Option<Tracked>, to: Option<Tracked>, fromIsSrtu: bool, toIsSrtu: bool,
                            fromIsServiceRegistry: bool, toMasterSetupTransferSeen: bool): (c: Option<Classified>)
  {
    if from.None? && to.None? && !fromIsSrtu && !toIsSrtu then None
    else if HasRole(from, Master) && toIsSrtu then None
    else if fromIsSrtu && HasRole(to, Master) then None
    else if HasRole(from, Master) && (HasRole(to, Agent) || HasRole(to, AgentEoa)) then
      Result(MasterToAgent, to.value.serviceId, from.value.masterSafeId,
             if HasRole(to, Agent) then Some(to.value.id) else None)
    else if HasRole(from, Agent) && HasRole(to, Master) then
      Result(AgentToMaster, from.value.serviceId, Some(to.value.id), Some(from.value.id))
    else if HasRole(from, Staking) && HasRole(to, Agent) then
      Result(StakingRewardClaim, to.value.serviceId, to.value.masterSafeId, Some(to.value.id))
    else if HasRole(to, Master) then
      if fromIsServiceRegistry then Result(Other, None, Some(to.value.id), None)
      else if HasRole(from, MasterEoa) && !toMasterSetupTransferSeen then Result(SafeSetupTransfer, None, Some(to.value.id), None)
      else Some(Classified(MasterFundingIn, None, Some(to.value.id), None,
                           if HasRole(from, Master) then Some(from.value.id) else None))
    else if HasRole(from, Master) then Result(MasterWithdrawal, None, Some(from.value.id), None)
    else if HasRole(from, Agent) then Result(AgentToApp, from.value.serviceId, from.value.masterSafeId, Some(from.value.id))
    else if HasRole(to, Agent) then Result(AppToAgent, to.value.serviceId, to.value.masterSafeId, Some(to.value.id))
    else
      var masterRef := if from.Some? && from.value.masterSafeId.Some? then from.value.masterSafeId
                       else if to.Some? then to.value.masterSafeId else None;
      Result(Other, None, masterRef, None)
  }

  /** Dropped are the transfers of untracked ends away from the SRTU, and the bond legs between it and a Master Safe. */
  lemma ClassifiesAllButBondLegs(from: Option<Tracked>, to: Option<Tracked>, fromIsSrtu: bool, toIsSrtu: bool,
                                 registry: bool, seen: bool)
    ensures ClassifyTransfer(from, to, fromIsSrtu, toIsSrtu, registry, seen).None? <==>
              || (from.None? && to.None? && !fromIsSrtu && !toIsSrtu)
              || (HasRole(from, Master) && toIsSrtu) || (fromIsSrtu && HasRole(to, Master))
  {
  }

  predicate OwnMaster(t: Tracked)
  {
    t.role == Master ==> t.masterSafeId == Some(t.id)
  }

  /**
   A transfer with a Master Safe at an end is in that safe's history, the recipient's when both ends are,
   and then the sender is named too; one with an Agent Safe at an end names it and its service, the
   sender's when both ends are.
   */
  lemma ClassifiedOwner(from: Option<Tracked>, to: Option<Tracked>, fromIsSrtu: bool, toIsSrtu: bool, registry: bool, seen: bool)
    requires (from.Some? ==> OwnMaster(from.value)) && (to.Some? ==> OwnMaster(to.value)) && !registry
    ensures match ClassifyTransfer(from, to, fromIsSrtu, toIsSrtu, registry, seen)
            case None => true
            case Some(c) =>
              && (HasRole(to, Master) ==> c.masterSafeId == Some(to.value.id))
              && (HasRole(from, Master) && !HasRole(to, Master) ==> c.masterSafeId == Some(from.value.id))
              && (c.senderMasterId.Some? <==> HasRole(from, Master) && HasRole(to, Master))
              && (c.senderMasterId.Some? ==> c.senderMasterId == Some(from.value.id))
              && (HasRole(from, Agent) ==> c.agentSafeId == Some(from.value.id) && c.serviceId == from.value.serviceId)
              && (HasRole(to, Agent) && !HasRole(from, Agent) ==> c.agentSafeId == Some(to.value.id) && c.serviceId == to.value.serviceId)
  {
  }

  // --- Rows and handlers ------------------------------------------------------------------------

  /** One funding action: what a Master Safe sends a service in one transaction. */
  type FundingKey = (TxHash, Address, ServiceId)

  datatype Funding = Funding(native: nat, olas: nat)

  /** `owner` is the row's masterSafe, `funding` the funding action it is grouped under. */
  datatype Movement = Movement(category: Category, serviceId: Option<ServiceId>, owner: Option<Address>, agentSafeId: Option<Address>,
                               funding: Option<FundingKey>, token: Option<Token>, amount: nat, source: Address, destination: Address)

  /** `setupSeen` are the Master Safe rows with their setupTransferSeen. */
  datatype State = State(tracked: map<Address, Tracked>, setupSeen: map<Address, bool>, balances: map<(Address, Token), int>,
                         fundings: map<FundingKey, Funding>, movements: seq<Movement>)

  const INITIAL := State(map[], map[], map[], map[], [])

  function TrackedOf(s: State, a: Address): (t: Option<Tracked>)
  {
    if a in s.tracked then Some(s.tracked[a]) else None
  }

  function BalanceOf(balances: map<(Address, Token), int>, a: Address, t: Token): (b: int)
  {
    if (a, t) in balances then balances[(a, t)] else 0
  }

  /** upsertTokenBalance with a signed delta. */
  function Moved(balances: map<(Address, Token), int>, a: Address, t: Token, amount: int): (n: map<(Address, Token), int>)
  {
    balances[(a, t) := BalanceOf(balances, a, t) + amount]
  }

  /** upsertTracked: the first role of an address stands. */
  function AfterTrack(s: State, row: Tracked): (n: State)
  {
    if row.id in s.tracked then s
    else s.(tracked := s.tracked[row.id := row],
            setupSeen := if row.role == Master then s.setupSeen[row.id := false] else s.setupSeen)
  }

  predicate Credits(c: Category)
  {
    c == SafeSetupTransfer || c == MasterFundingIn || c == AgentToMaster || c == AgentOlasToMaster || c == AppToAgent
    || c == StakingRewardClaim
  }

  predicate Debits(c: Category)
  {
    c == MasterWithdrawal || c == MasterToAgent || c == AgentToApp || c == AgentToMaster || c == AgentOlasToMaster
  }

  function AfterBalances(balances: map<(Address, Token), int>, c: Category, toMaster: bool, from: Address, to: Address,
                         amount: nat, t: Token): (n: map<(Address, Token), int>)
  {
    var b0 := if Credits(c) then Moved(balances, to, t, amount) else balances;
    var b1 := if Debits(c) then Moved(b0, from, t, -(amount as int)) else b0;
    var b2 := if c == MasterToAgent then Moved(b1, to, t, amount) else b1;
    if toMaster then Moved(b2, from, t, -(amount as int)) else b2
  }

  function SetupSeen(s: State, from: Address, to: Address): (seen: bool)
  {
    if HasRole(TrackedOf(s, to), Master) && HasRole(TrackedOf(s, from), MasterEoa)
    then (if to in s.setupSeen then s.setupSeen[to] else true) else false
  }

  function ClassOf(s: State, from: Address, to: Address): (c: Option<Classified>)
  {
    ClassifyTransfer(TrackedOf(s, from), TrackedOf(s, to), from == SRTU, to == SRTU, from == SERVICE_REGISTRY_L2,
                     SetupSeen(s, from, to))
  }

  function CategoryOf(c: Classified, token: Option<Token>): (category: Category)
  {
    if c.category == AgentToMaster && token == Some(OLAS) then AgentOlasToMaster else c.category
  }

  /** What a Master Safe sends a service is grouped by transaction, safe and service. */
  function FundingOf(tx: TxHash, c: Classified): (k: Option<FundingKey>)
  {
    if c.category == MasterToAgent && c.masterSafeId.Some? && c.serviceId.Some?
    then Some((tx, c.masterSafeId.value, c.serviceId.value)) else None
  }

  /** Native amounts and OLAS are totalled; other tokens only appear in the group. */
  function PlusLeg(f: Funding, token: Option<Token>, amount: nat): (n: Funding)
  {
    if token.None? then f.(native := f.native + amount)
    else if token == Some(OLAS) then f.(olas := f.olas + amount)
    else f
  }

  function TotalsOf(fundings: map<FundingKey, Funding>, k: FundingKey): (f: Funding)
  {
    if k in fundings then fundings[k] else Funding(0, 0)
  }

  function AfterFunding(fundings: map<FundingKey, Funding>, k: Option<FundingKey>, token: Option<Token>, amount: nat)
    : (n: map<FundingKey, Funding>)
  {
    if k.None? then fundings else fundings[k.value := PlusLeg(TotalsOf(fundings, k.value), token, amount)]
  }

  function MovementOf(tx: TxHash, c: Classified, from: Address, to: Address, amount: nat, token: Option<Token>): (m: Movement)
  {
    Movement(CategoryOf(c, token), c.serviceId, c.masterSafeId, c.agentSafeId, FundingOf(tx, c), token, amount, from, to)
  }

  function AfterTransfer(s: State, tx: TxHash, from: Address, to: Address, amount: nat, token: Option<Token>): (n: State)
  {
    match ClassOf(s, from, to)
    case None => s
    case Some(c) =>
      var category := CategoryOf(c, token);
      s.(setupSeen := if category == SafeSetupTransfer && c.masterSafeId.Some? && c.masterSafeId.value in s.setupSeen
                      then s.setupSeen[c.masterSafeId.value := true] else s.setupSeen,
         fundings := AfterFunding(s.fundings, FundingOf(tx, c), token, amount),
         movements := s.movements + [MovementOf(tx, c, from, to, amount, token)],
         balances := if token.None? then s.balances
                     else AfterBalances(s.balances, category, c.senderMasterId.Some?, from, to, amount, token.value))
  }

  predicate TracksMaster(s: State, account: Address)
  {
    HasRole(TrackedOf(s, account), Master) && s.tracked[account].masterSafeId.Some?
  }

  /** A bond deposit debits its Master Safe, a refund credits it; other accounts are left alone. */
  function AfterBond(s: State, account: Address, t: Token, amount: int): (n: State)
  {
    if TracksMaster(s, account) then s.(balances := Moved(s.balances, account, t, amount)) else s
  }

  // --- Events -----------------------------------------------------------------------------------

  datatype Event =
    | Track(row: Tracked)
    | Transfer(tx: TxHash, source: Address, destination: Address, amount: nat, token: Option<Token>)
    | Deposit(account: Address, bond: Token, amount: nat)
    | Refund(account: Address, bond: Token, amount: nat)

  function Step(s: State, e: Event): (n: State)
  {
    match e
    case Track(row) => AfterTrack(s, row)
    case Transfer(tx, from, to, amount, token) => AfterTransfer(s, tx, from, to, amount, token)
    case Deposit(account, t, amount) => AfterBond(s, account, t, -(amount as int))
    case Refund(account, t, amount) => AfterBond(s, account, t, amount)
  }

  function Run(events: seq<Event>): (s: State)
  {
    if events == [] then INITIAL else Step(Run(events[..|events| - 1]), events[|events| - 1])
  }

  /** A Master Safe is tracked as its own, and the registry is no Agent Safe. */
  predicate PossibleRow(row: Tracked)
  {
    && (row.role == Master ==> row.masterSafeId == Some(row.id))
    && (row.role == Agent ==> row.id != SERVICE_REGISTRY_L2)
  }

  predicate Possible(events: seq<Event>)
  {
    forall e | e in events && e.Track? :: PossibleRow(e.row)
  }

  // --- The Master Safe ledger -------------------------------------------------------------------

  /** What an event pays into a Master Safe less what it takes out, by its two ends alone. */
  function PaidToMaster(e: Event, m: Address, t: Token): (d: int)
  {
    match e
    case Track(_) => 0
    case Transfer(_, from, to, amount, token) =>
      (if token == Some(t) && to == m && from != SRTU && from != SERVICE_REGISTRY_L2 then amount else 0)
      - (if token == Some(t) && from == m && to != SRTU then amount else 0)
    case Deposit(account, bond, amount) => if account == m && bond == t then -(amount as int) else 0
    case Refund(account, bond, amount) => if account == m && bond == t then amount else 0
  }

  /** The sum of it since the safe was tracked. */
  function MasterLedger(events: seq<Event>, m: Address, t: Token): (b: int)
  {
    if events == [] then 0
    else
      var init := events[..|events| - 1];
      MasterLedger(init, m, t) + (if HasRole(TrackedOf(Run(init), m), Master) then PaidToMaster(events[|events| - 1], m, t) else 0)
  }

  /** What a transfer of a category does to the balance of an address at either or both of its ends. */
  function Gain(c: Category, toMaster: bool, isFrom: bool, isTo: bool, amount: nat): (g: int)
  {
    (if isTo && (Credits(c) || c == MasterToAgent) then amount else 0)
    - (if isFrom && Debits(c) then amount else 0) - (if isFrom && toMaster then amount else 0)
  }

  lemma BalancesGain(balances: map<(Address, Token), int>, c: Category, toMaster: bool, from: Address, to: Address, amount: nat,
                     token: Token, a: Address, t: Token)
    ensures BalanceOf(AfterBalances(balances, c, toMaster, from, to, amount, token), a, t)
            == BalanceOf(balances, a, t) + (if t == token then Gain(c, toMaster, from == a, to == a, amount) else 0)
  {
  }

  lemma TransferGain(s: State, tx: TxHash, from: Address, to: Address, amount: nat, token: Option<Token>, a: Address, t: Token)
    ensures BalanceOf(AfterTransfer(s, tx, from, to, amount, token).balances, a, t) == BalanceOf(s.balances, a, t) +
              match ClassOf(s, from, to)
              case None => 0
              case Some(c) => if token == Some(t) then Gain(CategoryOf(c, token), c.senderMasterId.Some?, from == a, to == a, amount) else 0
  {
    var o := ClassOf(s, from, to);
    if o.Some? && token.Some? {
      BalancesGain(s.balances, CategoryOf(o.value, token), o.value.senderMasterId.Some?, from, to, amount, token.value, a, t);
    }
  }

  lemma StepPaysMaster(s: State, e: Event, m: Address, t: Token)
    requires TracksMaster(s, m) && m != SRTU && m != SERVICE_REGISTRY_L2
    requires !HasRole(TrackedOf(s, SERVICE_REGISTRY_L2), Agent)
    ensures BalanceOf(Step(s, e).balances, m, t) == BalanceOf(s.balances, m, t) + PaidToMaster(e, m, t)
  {
    if e.Transfer? {
      TransferGain(s, e.tx, e.source, e.destination, e.amount, e.token, m, t);
    }
  }

  /** Balances of addresses not tracked are never touched. */
  lemma StepSkipsUntracked(s: State, e: Event, a: Address, t: Token)
    requires a !in s.tracked
    ensures BalanceOf(Step(s, e).balances, a, t) == BalanceOf(s.balances, a, t)
  {
    if e.Transfer? {
      TransferGain(s, e.tx, e.source, e.destination, e.amount, e.token, a, t);
    }
  }

  lemma StepKeepsRole(s: State, e: Event, a: Address)
    ensures a in s.tracked ==> a in Step(s, e).tracked && Step(s, e).tracked[a] == s.tracked[a]
    ensures a !in s.tracked && a in Step(s, e).tracked ==> e.Track? && e.row.id == a && Step(s, e).tracked[a] == e.row
  {
  }

  ghost predicate RowsPossible(s: State)
  {
    forall a | a in s.tracked :: s.tracked[a].id == a && PossibleRow(s.tracked[a])
  }

  /**
   A Master Safe's token balance is what its ERC-20 transfers brought in less what they took out since it
   was tracked - bond legs with the SRTU and what ServiceRegistryL2 sends left out - plus its booked
   bond refunds less its booked bond deposits. Transfers between Master Safes and to itself included.
   */
  lemma {:induction false} BalanceIsLedger(events: seq<Event>, m: Address, t: Token)
    requires Possible(events) && m != SRTU && m != SERVICE_REGISTRY_L2
    ensures RowsPossible(Run(events))
    ensures m !in Run(events).tracked || HasRole(TrackedOf(Run(events), m), Master) ==>
              BalanceOf(Run(events).balances, m, t) == MasterLedger(events, m, t)
    ensures m !in Run(events).tracked ==> MasterLedger(events, m, t) == 0
  {
    if events != [] {
      var init, e := events[..|events| - 1], events[|events| - 1];
      BalanceIsLedger(init, m, t);
      var s := Run(init);
      assert e in events;
      StepKeepsRole(s, e, m);
      if m !in s.tracked {
        StepSkipsUntracked(s, e, m, t);
      } else if HasRole(TrackedOf(s, m), Master) {
        StepPaysMaster(s, e, m, t);
      }
    }
  }

  // --- The Agent Safe ledger --------------------------------------------------------------------

  /** What a transfer pays into an Agent Safe less what it takes out, but for what other Agent Safes send it. */
  function PaidToAgent(s: State, e: Event, a: Address, t: Token): (d: int)
  {
    if e.Transfer? && e.token == Some(t) then
      (if e.destination == a && !HasRole(TrackedOf(s, e.source), Agent) then e.amount else 0)
      - (if e.source == a then e.amount else 0)
    else 0
  }

  /** An Agent Safe's balance follows its transfers exactly but for those an Agent Safe sends it: they are not credited. */
  lemma StepPaysAgent(s: State, e: Event, a: Address, t: Token)
    requires HasRole(TrackedOf(s, a), Agent) && a != SRTU
    ensures BalanceOf(Step(s, e).balances, a, t) == BalanceOf(s.balances, a, t) + PaidToAgent(s, e, a, t)
  {
    if e.Transfer? {
      TransferGain(s, e.tx, e.source, e.destination, e.amount, e.token, a, t);
    }
  }

  /** So a transfer leaves an Agent Safe's balance at odds with its tokens exactly when an Agent Safe sends it some. */
  lemma AgentFollowsTransfersIff(s: State, tx: TxHash, from: Address, to: Address, amount: nat, a: Address, t: Token)
    requires HasRole(TrackedOf(s, a), Agent) && a != SRTU
    ensures BalanceOf(AfterTransfer(s, tx, from, to, amount, Some(t)).balances, a, t)
              == BalanceOf(s.balances, a, t) + (if to == a then amount else 0) - (if from == a then amount else 0)
            <==> !(to == a && HasRole(TrackedOf(s, from), Agent) && amount > 0)
  {
    StepPaysAgent(s, Transfer(tx, from, to, amount, Some(t)), a, t);
  }

  /** Two Agent Safes of nobody in particular; the first sends the second one token. */
  const BETWEEN_AGENTS := [Track(Tracked(5, Agent, None, None)), Track(Tracked(6, Agent, None, None)), Transfer(0, 5, 6, 1, Some(3))]

  /** Such a run: the sender is debited and the receiver is not credited. */
  lemma AgentToAgentIsLost()
    ensures Possible(BETWEEN_AGENTS)
    ensures BalanceOf(Run(BETWEEN_AGENTS).balances, 5, 3) == -1 && BalanceOf(Run(BETWEEN_AGENTS).balances, 6, 3) == 0
  {
    var e1, e2, e3 := BETWEEN_AGENTS[0], BETWEEN_AGENTS[1], BETWEEN_AGENTS[2];
    assert BETWEEN_AGENTS[..2] == [e1, e2] && [e1, e2][..1] == [e1] && [e1][..0] == [];
    assert Run([e1]) == AfterTrack(INITIAL, e1.row);
    assert Run([e1, e2]) == AfterTrack(AfterTrack(INITIAL, e1.row), e2.row);
  }

  // --- The setup transfer -----------------------------------------------------------------------

  function SetupTransfers(movements: seq<Movement>, m: Address): (n: nat)
  {
    if movements == [] then 0
    else
      var last := movements[|movements| - 1];
      SetupTransfers(movements[..|movements| - 1], m)
      + (if last.category == SafeSetupTransfer && last.destination == m then 1 else 0)
  }

  lemma SetupTransfersAppend(movements: seq<Movement>, last: Movement, m: Address)
    ensures SetupTransfers(movements + [last], m)
            == SetupTransfers(movements, m) + (if last.category == SafeSetupTransfer && last.destination == m then 1 else 0)
  {
    assert (movements + [last])[..|movements|] == movements;
  }

  /** Every Master Safe has a row for its setup transfer, and the flag says whether it was seen. */
  ghost predicate SetupValid(s: State, m: Address)
  {
    && (HasRole(TrackedOf(s, m), Master) ==> m in s.setupSeen)
    && SetupTransfers(s.movements, m) == (if m in s.setupSeen && s.setupSeen[m] then 1 else 0)
  }

  lemma StepKeepsSetup(s: State, e: Event, m: Address)
    requires RowsPossible(s) && (e.Track? ==> PossibleRow(e.row))
    requires SetupValid(s, m) && (m in s.setupSeen ==> m in s.tracked)
    ensures SetupValid(Step(s, e), m) && (m in Step(s, e).setupSeen ==> m in Step(s, e).tracked)
  {
    if e.Transfer? && ClassOf(s, e.source, e.destination).Some? {
      var c := ClassOf(s, e.source, e.destination).value;
      SetupTransfersAppend(s.movements, MovementOf(e.tx, c, e.source, e.destination, e.amount, e.token), m);
    }
  }

  /** A Master Safe has at most one setup transfer in its history. */
  lemma {:induction false} SetupTransferOnce(events: seq<Event>, m: Address)
    requires Possible(events)
    ensures SetupValid(Run(events), m) && (m in Run(events).setupSeen ==> m in Run(events).tracked)
    ensures SetupTransfers(Run(events).movements, m) <= 1
  {
    if events != [] {
      var init, e := events[..|events| - 1], events[|events| - 1];
      SetupTransferOnce(init, m);
      RowsArePossible(init);
      assert e in events;
      StepKeepsSetup(Run(init), e, m);
    }
  }

  lemma {:induction false} RowsArePossible(events: seq<Event>)
    requires Possible(events)
    ensures RowsPossible(Run(events))
  {
    if events != [] {
      RowsArePossible(events[..|events| - 1]);
      assert events[|events| - 1] in events;
    }
  }

  // --- Funding actions --------------------------------------------------------------------------

  /** The totals of the rows grouped under a funding action. */
  function LegTotals(movements: seq<Movement>, k: FundingKey): (f: Funding)
  {
    if movements == [] then Funding(0, 0)
    else
      var last := movements[|movements| - 1];
      var f := LegTotals(movements[..|movements| - 1], k);
      Funding(f.native + (if last.funding == Some(k) && last.token == None then last.amount else 0),
              f.olas + (if last.funding == Some(k) && last.token == Some(OLAS) then last.amount else 0))
  }

  lemma LegTotalsAppend(movements: seq<Movement>, last: Movement, k: FundingKey)
    ensures var f := LegTotals(movements, k);
            LegTotals(movements + [last], k) == if last.funding == Some(k) then PlusLeg(f, last.token, last.amount) else f
  {
    assert (movements + [last])[..|movements|] == movements;
  }

  /** A grouped row is of its funding action's Master Safe and service, and the action exists. */
  ghost predicate Grouped(s: State, m: Movement)
  {
    (m.category == MasterToAgent && m.owner.Some? && m.serviceId.Some? <==> m.funding.Some?)
    && (m.funding.Some? ==> m.owner == Some(m.funding.value.1) && m.serviceId == Some(m.funding.value.2) && m.funding.value in s.fundings)
  }

  ghost predicate FundingValid(s: State)
  {
    && (forall m | m in s.movements :: Grouped(s, m))
    && (forall k: FundingKey :: TotalsOf(s.fundings, k) == LegTotals(s.movements, k))
    && (forall k | k in s.fundings :: exists m :: m in s.movements && m.funding == Some(k))
  }

  lemma TransferKeepsTotals(s: State, tx: TxHash, c: Classified, from: Address, to: Address, amount: nat, token: Option<Token>, k: FundingKey)
    requires TotalsOf(s.fundings, k) == LegTotals(s.movements, k)
    ensures TotalsOf(AfterFunding(s.fundings, FundingOf(tx, c), token, amount), k)
            == LegTotals(s.movements + [MovementOf(tx, c, from, to, amount, token)], k)
  {
    LegTotalsAppend(s.movements, MovementOf(tx, c, from, to, amount, token), k);
  }

  lemma StepKeepsFunding(s: State, e: Event)
    requires FundingValid(s)
    ensures FundingValid(Step(s, e))
  {
    var n := Step(s, e);
    if e.Transfer? && ClassOf(s, e.source, e.destination).Some? {
      var c := ClassOf(s, e.source, e.destination).value;
      var row := MovementOf(e.tx, c, e.source, e.destination, e.amount, e.token);
      forall k: FundingKey
        ensures TotalsOf(n.fundings, k) == LegTotals(n.movements, k)
      {
        TransferKeepsTotals(s, e.tx, c, e.source, e.destination, e.amount, e.token, k);
      }
      forall m | m in n.movements
        ensures Grouped(n, m)
      {
        assert m == row || Grouped(s, m);
      }
      forall k | k in n.fundings
        ensures exists m :: m in n.movements && m.funding == Some(k)
      {
        if k in s.fundings {
          var m :| m in s.movements && m.funding == Some(k);
          assert m in n.movements;
        } else {
          assert row in n.movements;
        }
      }
    }
  }

  /**
   A funding action stands for its rows: it exists when a row is grouped under it, its native and OLAS
   totals are those of its rows, and its rows are the Master Safe's transfers to the service.
   */
  lemma {:induction false} FundingIsItsRows(events: seq<Event>)
    ensures FundingValid(Run(events))
  {
    if events != [] {
      FundingIsItsRows(events[..|events| - 1]);
      StepKeepsFunding(Run(events[..|events| - 1]), events[|events| - 1]);
    }
  }

  // --- The handlers -----------------------------------------------------------------------------

  lemma RunAppend(events: seq<Event>, e: Event)
    ensures Run(events + [e]) == Step(Run(events), e)
    ensures Possible(events) && (e.Track? ==> PossibleRow(e.row)) ==> Possible(events + [e])
  {
    assert (events + [e])[..|events|] == events;
  }

  class Squid {
    var tracked: map<Address, Tracked>
    var setupSeen: map<Address, bool>
    var balances: map<(Address, Token), int>
    var fundings: map<FundingKey, Funding>
    var movements: seq<Movement>
    ghost var events: seq<Event>

    constructor ()
      ensures Valid() && View() == INITIAL && events == []
    {
      tracked, setupSeen, balances, fundings, movements, events := map[], map[], map[], map[], [], [];
    }

    /** The rows are those of the events handled so far. */
    ghost predicate Valid()
      reads this
    {
      View() == Run(events) && Possible(events)
    }

    /** What the theorems about runs say of the rows held. */
    lemma RowsAreLedger(m: Address, t: Token)
      requires Valid() && HasRole(TrackedOf(View(), m), Master) && m != SRTU && m != SERVICE_REGISTRY_L2
      ensures BalanceOf(balances, m, t) == MasterLedger(events, m, t)
      ensures SetupTransfers(movements, m) == (if m in setupSeen && setupSeen[m] then 1 else 0)
      ensures FundingValid(View())
    {
      BalanceIsLedger(events, m, t);
      SetupTransferOnce(events, m);
      FundingIsItsRows(events);
    }

    function View(): (s: State)
      reads this
    {
      State(tracked, setupSeen, balances, fundings, movements)
    }

    /** upsertTracked, with the Master Safe row made beside it. */
    method UpsertTracked(row: Tracked)
      modifies this
      ensures View() == Step(old(View()), Track(row)) && events == old(events) + [Track(row)]
      ensures old(Valid()) && PossibleRow(row) ==> Valid()
    {
      RunAppend(events, Track(row));
      events := events + [Track(row)];
      if row.id in tracked {
        return;
      }
      tracked := tracked[row.id := row];
      if row.role == Master {
        setupSeen := setupSeen[row.id := false];
      }
    }

    method UpsertTokenBalance(safe: Address, t: Token, amount: int)
      modifies this`balances
      ensures balances == Moved(old(balances), safe, t, amount)
    {
      if (safe, t) !in balances {
        balances := balances[(safe, t) := amount];
      } else {
        balances := balances[(safe, t) := balances[(safe, t)] + amount];
      }
    }

    method UpdateBalances(category: Category, toMaster: bool, from: Address, to: Address, amount: nat, t: Token)
      modifies this`balances
      ensures balances == AfterBalances(old(balances), category, toMaster, from, to, amount, t)
    {
      if Credits(category) {
        UpsertTokenBalance(to, t, amount);
      }
      if Debits(category) {
        UpsertTokenBalance(from, t, -(amount as int));
      }
      if category == MasterToAgent {
        UpsertTokenBalance(to, t, amount);
      }
      if toMaster {
        UpsertTokenBalance(from, t, -(amount as int));
      }
    }

    method HandleTransfer(tx: TxHash, from: Address, to: Address, amount: nat, token: Option<Token>)
      modifies this
      ensures View() == Step(old(View()), Transfer(tx, from, to, amount, token))
      ensures events == old(events) + [Transfer(tx, from, to, amount, token)] && (old(Valid()) ==> Valid())
    {
      RunAppend(events, Transfer(tx, from, to, amount, token));
      events := events + [Transfer(tx, from, to, amount, token)];
      var fromTracked, toTracked := TrackedOf(View(), from), TrackedOf(View(), to);
      if fromTracked.None? && toTracked.None? && from != SRTU && to != SRTU {
        return;
      }
      var seen := false;
      if HasRole(toTracked, Master) && HasRole(fromTracked, MasterEoa) {
        seen := if to in setupSeen then setupSeen[to] else true;
      }
      var o := ClassifyTransfer(fromTracked, toTracked, from == SRTU, to == SRTU, from == SERVICE_REGISTRY_L2, seen);
      if o.None? {
        return;
      }
      Book(tx, o.value, from, to, amount, token);
    }

    /** The row, the setup flag, the funding action and the balances of a classified transfer. */
    method Book(tx: TxHash, c: Classified, from: Address, to: Address, amount: nat, token: Option<Token>)
      requires Some(c) == ClassOf(View(), from, to)
      modifies this`setupSeen, this`fundings, this`movements, this`balances
      ensures View() == AfterTransfer(old(View()), tx, from, to, amount, token)
    {
      var category := if c.category == AgentToMaster && token == Some(OLAS) then AgentOlasToMaster else c.category;
      if category == SafeSetupTransfer && c.masterSafeId.Some? {
        MarkSetup(c.masterSafeId.value);
      }
      var row := Movement(category, c.serviceId, c.masterSafeId, c.agentSafeId, None, token, amount, from, to);
      if category == MasterToAgent && c.masterSafeId.Some? && c.serviceId.Some? {
        AddToAgentFundingEvent((tx, c.masterSafeId.value, c.serviceId.value), token, amount);
        row := row.(funding := Some((tx, c.masterSafeId.value, c.serviceId.value)));
      }
      movements := movements + [row];
      if token.None? {
        return;
      }
      UpdateBalances(category, c.senderMasterId.Some?, from, to, amount, token.value);
    }

    method AddToAgentFundingEvent(k: FundingKey, token: Option<Token>, amount: nat)
      modifies this`fundings
      ensures fundings == AfterFunding(old(fundings), Some(k), token, amount)
    {
      var event := if k in fundings then fundings[k] else Funding(0, 0);
      if token.None? {
        event := event.(native := event.native + amount);
      } else if token.value == OLAS {
        event := event.(olas := event.olas + amount);
      }
      fundings := fundings[k := event];
    }

    method MarkSetup(m: Address)
      modifies this`setupSeen
      ensures setupSeen == if m in old(setupSeen) then old(setupSeen)[m := true] else old(setupSeen)
    {
      if m in setupSeen && !setupSeen[m] {
        setupSeen := setupSeen[m := true];
      }
    }

    method TrackedMasterId(account: Address) returns (id: Option<Address>)
      ensures id.Some? <==> TracksMaster(View(), account)
      ensures id.Some? ==> id == tracked[account].masterSafeId
    {
      id := if account in tracked && tracked[account].role == Master then tracked[account].masterSafeId else None;
    }

    method HandleTokenDeposit(account: Address, t: Token, amount: nat)
      modifies this
      ensures View() == Step(old(View()), Deposit(account, t, amount))
      ensures events == old(events) + [Deposit(account, t, amount)] && (old(Valid()) ==> Valid())
    {
      RunAppend(events, Deposit(account, t, amount));
      events := events + [Deposit(account, t, amount)];
      var id := TrackedMasterId(account);
      if id.Some? {
        UpsertTokenBalance(account, t, -(amount as int));
      }
    }

    method HandleTokenRefund(account: Address, t: Token, amount: nat)
      modifies this
      ensures View() == Step(old(View()), Refund(account, t, amount))
      ensures events == old(events) + [Refund(account, t, amount)] && (old(Valid()) ==> Valid())
    {
      RunAppend(events, Refund(account, t, amount));
      events := events + [Refund(account, t, amount)];
      var id := TrackedMasterId(account);
      if id.Some? {
        UpsertTokenBalance(account, t, amount);
      }
    }
  }
}
