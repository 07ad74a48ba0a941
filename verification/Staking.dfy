/** The staking handlers of squids/staking/src/handlers.ts as steps on the rows they write. */
module Staking {
  import opened Wrappers

  type ServiceId = nat
  type Contract = nat
  type Epoch = nat

  /** `epochs` is totalEpochsParticipated; `latest` the contract it is staked in, if any. */
  datatype Service = Service(staked: int, stakeAmount: int, hasOlasStake: bool, earned: int, claimed: int, epochs: nat,
                             latest: Option<Contract>)

  /** `checkpoint`: the checkpoint the row is linked to. */
  datatype History = History(reward: nat, checkpoint: Option<nat>)

  type HistoryKey = (ServiceId, Contract, Epoch)

  datatype Global = Global(cumulativeStaked: int, cumulativeUnstaked: int, currentStaked: int, rewards: int, claimed: int)

  datatype State = State(services: map<ServiceId, Service>, histories: map<HistoryKey, History>,
                         trackers: map<(Contract, Epoch), seq<ServiceId>>, global: Global)

  const INITIAL := State(map[], map[], map[], Global(0, 0, 0, 0, 0))

  // --- Rows -------------------------------------------------------------------------------------

  /** A service's row, or one with nothing on it. */
  function RowOf(m: map<ServiceId, Service>, id: ServiceId): (r: Service)
  {
    if id in m then m[id] else Service(0, 0, false, 0, 0, 0, None)
  }

  function WithService(s: State, id: ServiceId, r: Service): (n: State)
  {
    s.(services := s.services[id := r])
  }

  /** getOrCreateServiceRewardsHistory: a new row counts as an epoch of its service, which must be known. */
  function WithHistory(s: State, k: HistoryKey): (o: Outcome<State>)
    ensures o.Done? ==> k in o.state.histories
  {
    if k in s.histories then Done(s)
    else if k.0 !in s.services then Thrown
    else
      var service := s.services[k.0];
      Done(s.(histories := s.histories[k := History(0, None)],
              services := s.services[k.0 := service.(epochs := service.epochs + 1)]))
  }

  function SetReward(s: State, k: HistoryKey, reward: nat, checkpoint: Option<nat>): (o: Outcome<State>)
  {
    match WithHistory(s, k)
    case Thrown => Thrown
    case Done(m) => Done(m.(histories := m.histories[k := History(reward, checkpoint)]))
  }

  /** The list with an id appended unless it is there. */
  function Including(ids: seq<ServiceId>, id: ServiceId): (r: seq<ServiceId>)
  {
    if id in ids then ids else ids + [id]
  }

  function TrackerOf(s: State, c: Contract, e: Epoch): (ids: seq<ServiceId>)
  {
    if (c, e) in s.trackers then s.trackers[(c, e)] else []
  }

  // --- Stakes -----------------------------------------------------------------------------------

  /** The row of a service that stakes an amount on a contract. */
  function StakedRow(was: Service, c: Contract, isOlas: bool, amount: nat): (r: Service)
  {
    was.(staked := was.staked + amount, stakeAmount := amount, hasOlasStake := was.hasOlasStake || isOlas, latest := Some(c))
  }

  /** A service's row written, and the service tracked in the epoch it stakes in. */
  function Enrolled(s: State, c: Contract, id: ServiceId, e: Epoch, r: Service): (n: State)
  {
    s.(services := s.services[id := r], trackers := s.trackers[(c, e) := Including(TrackerOf(s, c, e), id)])
  }

  function StakeOnGlobal(s: State, amount: int): (n: State)
  {
    s.(global := s.global.(cumulativeStaked := s.global.cumulativeStaked + amount,
                           currentStaked := s.global.currentStaked + amount))
  }

  function AfterStake(s: State, c: Contract, isOlas: bool, id: ServiceId, e: Epoch, amount: nat): (o: Outcome<State>)
  {
    match WithHistory(Enrolled(s, c, id, e, StakedRow(RowOf(s.services, id), c, isOlas, amount)), (id, c, e))
    case Thrown => Thrown
    case Done(n) => Done(StakeOnGlobal(n, amount))
  }

  /** Only a stake in OLAS counts. */
  function AfterStaked(s: State, c: Contract, isOlas: bool, id: ServiceId, e: Epoch, locked: nat): (o: Outcome<State>)
  {
    AfterStake(s, c, isOlas, id, e, if isOlas then locked else 0)
  }

  // --- Checkpoints ------------------------------------------------------------------------------

  function EarnedRow(was: Service, reward: nat): (r: Service)
  {
    was.(earned := was.earned + reward)
  }

  /** One listed service and its reward. */
  function AfterCredit(s: State, c: Contract, isOlas: bool, e: Epoch, checkpoint: nat, id: ServiceId, reward: nat): (o: Outcome<State>)
  {
    var m := if id in s.services && isOlas then WithService(s, id, EarnedRow(s.services[id], reward)) else s;
    SetReward(m, (id, c, e), reward, Some(checkpoint))
  }

  function AfterCredits(s: State, c: Contract, isOlas: bool, e: Epoch, checkpoint: nat,
                        ids: seq<ServiceId>, rewards: seq<nat>): (o: Outcome<State>)
    requires |ids| == |rewards|
  {
    if ids == [] then Done(s)
    else
      var n := |ids| - 1;
      match AfterCredits(s, c, isOlas, e, checkpoint, ids[..n], rewards[..n])
      case Thrown => Thrown
      case Done(m) => AfterCredit(m, c, isOlas, e, checkpoint, ids[n], rewards[n])
  }

  predicate StakedElsewhere(s: State, id: ServiceId, c: Contract)
  {
    id in s.services && s.services[id].latest.Some? && s.services[id].latest.value != c
  }

  /** One tracked service: no reward if it is not listed, unless it is staked elsewhere by now. */
  function AfterTracked(s: State, c: Contract, e: Epoch, checkpoint: nat, listed: seq<ServiceId>, id: ServiceId): (o: Outcome<State>)
  {
    if id in listed || StakedElsewhere(s, id, c) then Done(s)
    else SetReward(s, (id, c, e), 0, Some(checkpoint))
  }

  function AfterAllTracked(s: State, c: Contract, e: Epoch, checkpoint: nat, listed: seq<ServiceId>, tracker: seq<ServiceId>): (o: Outcome<State>)
  {
    if tracker == [] then Done(s)
    else
      match AfterAllTracked(s, c, e, checkpoint, listed, tracker[..|tracker| - 1])
      case Thrown => Thrown
      case Done(m) => AfterTracked(m, c, e, checkpoint, listed, tracker[|tracker| - 1])
  }

  /** The lists joined, each id once. */
  function Union(a: seq<ServiceId>, b: seq<ServiceId>): (u: seq<ServiceId>)
  {
    if b == [] then Deduplicated(a) else Including(Union(a, b[..|b| - 1]), b[|b| - 1])
  }

  function Deduplicated(a: seq<ServiceId>): (d: seq<ServiceId>)
  {
    if a == [] then [] else Including(Deduplicated(a[..|a| - 1]), a[|a| - 1])
  }

  function Total(rewards: seq<nat>): (t: nat)
  {
    if rewards == [] then 0 else Total(rewards[..|rewards| - 1]) + rewards[|rewards| - 1]
  }

  /** The services tracked in the epoch get their rows, and are tracked in the next one. */
  function AfterTracker(s: State, c: Contract, e: Epoch, checkpoint: nat, listed: seq<ServiceId>): (o: Outcome<State>)
  {
    if (c, e) !in s.trackers then Done(s)
    else
      var tracker := s.trackers[(c, e)];
      match AfterAllTracked(s, c, e, checkpoint, listed, tracker)
      case Thrown => Thrown
      case Done(m) => Done(m.(trackers := m.trackers[(c, e + 1) := Union(TrackerOf(m, c, e + 1), tracker)]))
  }

  function AfterCheckpoint(s: State, c: Contract, isOlas: bool, e: Epoch, checkpoint: nat,
                           ids: seq<ServiceId>, rewards: seq<nat>): (o: Outcome<State>)
  {
    if |ids| != |rewards| then Thrown
    else
      match AfterCredits(s, c, isOlas, e, checkpoint, ids, rewards)
      case Thrown => Thrown
      case Done(m) =>
        match AfterTracker(m, c, e, checkpoint, ids)
        case Thrown => Thrown
        case Done(n) =>
          Done(if isOlas then n.(global := n.global.(rewards := n.global.rewards + Total(rewards))) else n)
  }

  // --- Claims and unstakes ----------------------------------------------------------------------

  function ClaimedRow(was: Service, reward: nat): (r: Service)
  {
    was.(claimed := was.claimed + reward)
  }

  function ClaimOnGlobal(s: State, reward: nat): (n: State)
  {
    s.(global := s.global.(claimed := s.global.claimed + reward))
  }

  function AfterClaimed(s: State, isOlas: bool, id: ServiceId, reward: nat): (o: Outcome<State>)
  {
    if !isOlas then Done(s)
    else if id !in s.services then Thrown
    else Done(ClaimOnGlobal(WithService(s, id, ClaimedRow(s.services[id], reward)), reward))
  }

  /** The row of a service that unstakes, its last stake returned and a reward paid or not. */
  function UnstakedRow(was: Service, paid: nat): (r: Service)
  {
    was.(latest := None, claimed := was.claimed + paid, staked := was.staked - was.stakeAmount, stakeAmount := 0)
  }

  function UnstakeOnGlobal(s: State, amount: int): (n: State)
  {
    s.(global := s.global.(cumulativeUnstaked := s.global.cumulativeUnstaked + amount,
                           currentStaked := s.global.currentStaked - amount))
  }

  /** The history row of an unstake takes the reward and keeps the checkpoint it is linked to. */
  function SetPaid(s: State, k: HistoryKey, reward: nat): (o: Outcome<State>)
  {
    match WithHistory(s, k)
    case Thrown => Thrown
    case Done(m) => Done(m.(histories := m.histories[k := m.histories[k].(reward := reward)]))
  }

  function AfterUnstake(s: State, c: Contract, isPaid: bool, id: ServiceId, e: Epoch, reward: nat): (o: Outcome<State>)
  {
    var amount := RowOf(s.services, id).stakeAmount;
    var paid := if isPaid then reward else 0;
    match SetPaid(if id in s.services then WithService(s, id, UnstakedRow(s.services[id], paid)) else s, (id, c, e), reward)
    case Thrown => Thrown
    case Done(m) => Done(ClaimOnGlobal(UnstakeOnGlobal(m, amount), paid))
  }

  /** A reward is paid out unless the service was forced out or does not stake OLAS. */
  function AfterUnstaked(s: State, c: Contract, isOlas: bool, forced: bool, id: ServiceId, e: Epoch, reward: nat): (o: Outcome<State>)
  {
    if isOlas && id !in s.services then Thrown else AfterUnstake(s, c, !forced && isOlas, id, e, reward)
  }

  // --- Events -----------------------------------------------------------------------------------

  /** `isOlas` is the contract's isOlasStaking, `locked` the answer of the chain to lockedOlas. */
  datatype Event =
    | Staked(contract: Contract, isOlas: bool, service: ServiceId, epoch: Epoch, locked: nat)
    | Checkpoint(contract: Contract, isOlas: bool, epoch: Epoch, checkpoint: nat, services: seq<ServiceId>, rewards: seq<nat>)
    | RewardClaimed(isOlas: bool, service: ServiceId, reward: nat)
    | Unstaked(contract: Contract, isOlas: bool, forced: bool, service: ServiceId, epoch: Epoch, reward: nat)

  function Step(s: State, event: Event): (o: Outcome<State>)
  {
    match event
    case Staked(c, isOlas, id, e, locked) => AfterStaked(s, c, isOlas, id, e, locked)
    case Checkpoint(c, isOlas, e, checkpoint, ids, rewards) => AfterCheckpoint(s, c, isOlas, e, checkpoint, ids, rewards)
    case RewardClaimed(isOlas, id, reward) => AfterClaimed(s, isOlas, id, reward)
    case Unstaked(c, isOlas, forced, id, e, reward) => AfterUnstaked(s, c, isOlas, forced, id, e, reward)
  }

  /** Completed events only: a throw leaves the run where its batch began, here before the event. */
  function Run(s: State, events: seq<Event>): (o: Outcome<State>)
  {
    if events == [] then Done(s)
    else
      match Run(s, events[..|events| - 1])
      case Thrown => Thrown
      case Done(m) => Step(m, events[|events| - 1])
  }
}
