/**
 What the staking rows hold, told from the events alone: every amount of a service and of Global, the
 trackers and the history rows after any completed run.
 */
module StakingLedger {
  import opened Wrappers
  import opened Staking
  import opened StakingProofs
  import opened StakingEpochs

  // --- What the events say ----------------------------------------------------------------------

  /** Only a stake on an OLAS contract has an amount. */
  function Amount(isOlas: bool, locked: nat): (a: nat)
  {
    if isOlas then locked else 0
  }

  /** The amount of a service's last stake, unless it unstaked since. */
  function LastStake(events: seq<Event>, id: ServiceId): (a: nat)
  {
    if events == [] then 0
    else
      var last, before := events[|events| - 1], LastStake(events[..|events| - 1], id);
      if last.Staked? && last.service == id then Amount(last.isOlas, last.locked)
      else if last.Unstaked? && last.service == id then 0
      else before
  }

  /** The contract of a service's last stake, unless it unstaked since. */
  function LastContract(events: seq<Event>, id: ServiceId): (c: Option<Contract>)
  {
    if events == [] then None
    else
      var last, before := events[|events| - 1], LastContract(events[..|events| - 1], id);
      if last.Staked? && last.service == id then Some(last.contract)
      else if last.Unstaked? && last.service == id then None
      else before
  }

  predicate IsStakeOf(e: Event, id: ServiceId)
  {
    e.Staked? && e.service == id
  }

  ghost predicate EverStaked(events: seq<Event>, id: ServiceId)
  {
    exists i :: 0 <= i < |events| && IsStakeOf(events[i], id)
  }

  ghost predicate EverStakedOlas(events: seq<Event>, id: ServiceId)
  {
    exists i :: 0 <= i < |events| && IsStakeOf(events[i], id) && events[i].isOlas
  }

  /** What an event stakes, and what it returns: the last stake of the service that unstakes. */
  function StakedBy(e: Event): (a: nat)
  {
    if e.Staked? then Amount(e.isOlas, e.locked) else 0
  }

  function ReturnedBy(before: seq<Event>, e: Event): (a: nat)
  {
    if e.Unstaked? then LastStake(before, e.service) else 0
  }

  /** What an event pays out to a service: claims on OLAS contracts, and the rewards of voluntary unstakes from them. */
  function PaidBy(e: Event): (a: nat)
  {
    match e
    case RewardClaimed(isOlas, _, reward) => if isOlas then reward else 0
    case Unstaked(_, isOlas, forced, _, _, reward) => if isOlas && !forced then reward else 0
    case _ => 0
  }

  predicate Concerns(e: Event, id: ServiceId)
  {
    !e.Checkpoint? && e.service == id
  }

  function ListedReward(ids: seq<ServiceId>, rewards: seq<nat>, id: ServiceId): (t: nat)
    requires |ids| == |rewards|
  {
    if ids == [] then 0
    else
      var n := |ids| - 1;
      ListedReward(ids[..n], rewards[..n], id) + (if ids[n] == id then rewards[n] else 0)
  }

  /** What an event earns a service. */
  function EarnedBy(e: Event, id: ServiceId): (a: nat)
  {
    if e.Checkpoint? && e.isOlas && |e.services| == |e.rewards| then ListedReward(e.services, e.rewards, id) else 0
  }

  /** The figures of one service, and those of all. */
  datatype Figures = Figures(staked: int, returned: int, earned: int, paid: int)

  function OfService(events: seq<Event>, id: ServiceId): (f: Figures)
  {
    if events == [] then Figures(0, 0, 0, 0)
    else
      var init, e := events[..|events| - 1], events[|events| - 1];
      var f := OfService(init, id);
      var mine := Concerns(e, id);
      Figures(f.staked + (if mine then StakedBy(e) else 0), f.returned + (if mine then ReturnedBy(init, e) else 0),
              f.earned + EarnedBy(e, id), f.paid + (if mine then PaidBy(e) else 0))
  }

  function OfAll(events: seq<Event>): (f: Figures)
  {
    if events == [] then Figures(0, 0, 0, 0)
    else
      var init, e := events[..|events| - 1], events[|events| - 1];
      var f := OfAll(init);
      Figures(f.staked + StakedBy(e), f.returned + ReturnedBy(init, e),
              f.earned + (if e.Checkpoint? && e.isOlas then Total(e.rewards) else 0), f.paid + PaidBy(e))
  }

  /** A service is tracked in an epoch if it staked in it, or was tracked in the one before when that was checkpointed. */
  ghost predicate IsTracked(events: seq<Event>, c: Contract, e: Epoch, id: ServiceId)
  {
    events != [] &&
    var init, last := events[..|events| - 1], events[|events| - 1];
    || IsTracked(init, c, e, id)
    || (IsStakeOf(last, id) && last.contract == c && last.epoch == e)
    || (last.Checkpoint? && last.contract == c && e > 0 && last.epoch == e - 1 && IsTracked(init, c, e - 1, id))
  }

  /** What the last event to write a history row left in it. */
  ghost function HistoryOf(events: seq<Event>, k: HistoryKey): (h: Option<History>)
  {
    if events == [] then None
    else
      var init, last := events[..|events| - 1], events[|events| - 1];
      var was := HistoryOf(init, k);
      match last
      case Staked(c, _, id, e, _) => if (id, c, e) == k && was.None? then Some(History(0, None)) else was
      case Checkpoint(c, _, e, checkpoint, ids, rewards) =>
        if (k.1, k.2) != (c, e) || |ids| != |rewards| then was
        else if k.0 in ids then Some(History(LastReward(ids, rewards, k.0), Some(checkpoint)))
        else if IsTracked(init, c, e, k.0) && LastContract(init, k.0) in {None, Some(c)} then Some(History(0, Some(checkpoint)))
        else was
      case Unstaked(c, _, _, id, e, reward) =>
        if (id, c, e) != k then was else Some(History(reward, if was.Some? then was.value.checkpoint else None))
      case RewardClaimed(_, _, _) => was
  }

  // --- What the rows show -----------------------------------------------------------------------

  /** The row of a service has the figures of its events; without a stake there are none, as on the empty row. */
  ghost predicate RowShows(r: Service, events: seq<Event>, id: ServiceId)
  {
    var f := OfService(events, id);
    && r.staked == f.staked - f.returned && r.stakeAmount == LastStake(events, id) && r.earned == f.earned && r.claimed == f.paid
    && r.latest == LastContract(events, id) && (r.hasOlasStake <==> EverStakedOlas(events, id))
  }

  ghost predicate ServiceShows(s: State, events: seq<Event>, id: ServiceId)
  {
    (id in s.services <==> EverStaked(events, id)) && RowShows(RowOf(s.services, id), events, id)
  }

  ghost predicate GlobalShows(g: Global, events: seq<Event>)
  {
    var f := OfAll(events);
    && g.cumulativeStaked == f.staked && g.cumulativeUnstaked == f.returned && g.currentStaked == f.staked - f.returned
    && g.rewards == f.earned && g.claimed == f.paid
  }

  function HistoryAt(s: State, k: HistoryKey): (h: Option<History>)
  {
    if k in s.histories then Some(s.histories[k]) else None
  }

  ghost predicate ServicesShow(s: State, events: seq<Event>)
  {
    forall id :: ServiceShows(s, events, id)
  }

  ghost predicate TrackersShow(s: State, events: seq<Event>)
  {
    forall c, e, id :: id in TrackerOf(s, c, e) <==> IsTracked(events, c, e, id)
  }

  ghost predicate HistoriesShow(s: State, events: seq<Event>)
  {
    forall k: HistoryKey :: HistoryAt(s, k) == HistoryOf(events, k)
  }

  ghost predicate Shows(s: State, events: seq<Event>)
  {
    ServicesShow(s, events) && GlobalShows(s.global, events) && TrackersShow(s, events) && HistoriesShow(s, events)
  }

  // --- Services ---------------------------------------------------------------------------------

  lemma StakedBefore(events: seq<Event>, id: ServiceId)
    requires events != []
    ensures var init, last := events[..|events| - 1], events[|events| - 1];
            && (EverStaked(events, id) <==> EverStaked(init, id) || IsStakeOf(last, id))
            && (EverStakedOlas(events, id) <==> EverStakedOlas(init, id) || (IsStakeOf(last, id) && last.isOlas))
  {
    var init, n := events[..|events| - 1], |events| - 1;
    if EverStaked(init, id) {
      var i :| 0 <= i < |init| && IsStakeOf(init[i], id);
      assert IsStakeOf(events[i], id);
    }
    if EverStaked(events, id) {
      var i :| 0 <= i < |events| && IsStakeOf(events[i], id);
      assert i < n ==> IsStakeOf(init[i], id);
    }
    if EverStakedOlas(init, id) {
      var i :| 0 <= i < |init| && IsStakeOf(init[i], id) && init[i].isOlas;
      assert IsStakeOf(events[i], id);
    }
    if EverStakedOlas(events, id) {
      var i :| 0 <= i < |events| && IsStakeOf(events[i], id) && events[i].isOlas;
      assert i < n ==> IsStakeOf(init[i], id);
    }
  }

  /** The same row but for its number of epochs. */
  predicate SameRow(n: Service, r: Service)
  {
    n == r.(epochs := n.epochs)
  }

  /** Between s and n no service's row changes but for its number of epochs. */
  ghost predicate SameServices(s: State, n: State)
  {
    n.services.Keys == s.services.Keys && forall id :: SameRow(RowOf(n.services, id), RowOf(s.services, id))
  }

  /** The row an event makes of a service's row, but for its number of epochs. */
  function RowNext(was: Service, e: Event, id: ServiceId): (r: Service)
  {
    if e.Checkpoint? then EarnedRow(was, EarnedBy(e, id))
    else if e.service != id then was
    else
      match e
      case Staked(c, isOlas, _, _, locked) => StakedRow(was, c, isOlas, Amount(isOlas, locked))
      case Unstaked(_, _, _, _, _, _) => UnstakedRow(was, PaidBy(e))
      case RewardClaimed(_, _, _) => ClaimedRow(was, PaidBy(e))
  }

  /** What an event does to the services: no other is added than one that stakes, and each row becomes RowNext. */
  ghost predicate ServicesAfter(s: State, n: State, e: Event)
  {
    && (forall id :: id in n.services <==> id in s.services || IsStakeOf(e, id))
    && forall id :: SameRow(RowOf(n.services, id), RowNext(RowOf(s.services, id), e, id))
  }

  lemma HistoryKeepsServices(s: State, k: HistoryKey)
    ensures WithHistory(s, k).Done? ==>
              var n := WithHistory(s, k).state; SameServices(s, n) && n.global == s.global && n.trackers == s.trackers
  {
  }

  lemma SetRewardKeepsServices(s: State, k: HistoryKey, reward: nat, checkpoint: Option<nat>)
    ensures SetReward(s, k, reward, checkpoint).Done? ==>
              var n := SetReward(s, k, reward, checkpoint).state; SameServices(s, n) && n.global == s.global
  {
    HistoryKeepsServices(s, k);
  }

  lemma StakeServices(s: State, e: Event)
    requires e.Staked?
    ensures Step(s, e).Done? && ServicesAfter(s, Step(s, e).state, e)
  {
    var r := StakedRow(RowOf(s.services, e.service), e.contract, e.isOlas, Amount(e.isOlas, e.locked));
    HistoryKeepsServices(Enrolled(s, e.contract, e.service, e.epoch, r), (e.service, e.contract, e.epoch));
  }

  lemma ClaimServices(s: State, e: Event)
    requires e.RewardClaimed? && Step(s, e).Done?
    ensures ServicesAfter(s, Step(s, e).state, e)
  {
  }

  lemma UnstakeServices(s: State, e: Event)
    requires RowsValid(s) && e.Unstaked? && Step(s, e).Done?
    ensures ServicesAfter(s, Step(s, e).state, e) && e.service in s.services
  {
    UnstakeThrowsIff(s, e.contract, e.isOlas, e.forced, e.service, e.epoch, e.reward);
    var m := WithService(s, e.service, UnstakedRow(s.services[e.service], PaidBy(e)));
    HistoryKeepsServices(m, (e.service, e.contract, e.epoch));
  }

  lemma NotListed(ids: seq<ServiceId>, rewards: seq<nat>, id: ServiceId)
    requires |ids| == |rewards| && id !in ids
    ensures ListedReward(ids, rewards, id) == 0
  {
  }

  ghost predicate CreditedOne(s: State, n: State, isOlas: bool, id: ServiceId, reward: nat)
  {
    && n.services.Keys == s.services.Keys && n.global == s.global
    && forall x :: SameRow(RowOf(n.services, x), EarnedRow(RowOf(s.services, x), if x == id && isOlas then reward else 0))
  }

  lemma CreditServices(s: State, c: Contract, isOlas: bool, e: Epoch, checkpoint: nat, id: ServiceId, reward: nat)
    requires RowsValid(s)
    ensures var o := AfterCredit(s, c, isOlas, e, checkpoint, id, reward);
            (o.Done? <==> id in s.services) && (o.Done? ==> CreditedOne(s, o.state, isOlas, id, reward))
  {
    var m := if id in s.services && isOlas then WithService(s, id, EarnedRow(s.services[id], reward)) else s;
    SetRewardKeepsServices(m, (id, c, e), reward, Some(checkpoint));
    assert id !in s.services ==> (id, c, e) !in s.histories;
  }

  /** What crediting does to the rows: each gets all that is listed for it, and every service listed is known. */
  ghost predicate CreditedServices(s: State, n: State, isOlas: bool, ids: seq<ServiceId>, rewards: seq<nat>)
    requires |ids| == |rewards|
  {
    && n.services.Keys == s.services.Keys && n.global == s.global
    && forall x :: SameRow(RowOf(n.services, x), EarnedRow(RowOf(s.services, x), if isOlas then ListedReward(ids, rewards, x) else 0))
  }

  lemma CreditedServicesNext(s: State, m: State, n: State, isOlas: bool, ids: seq<ServiceId>, rewards: seq<nat>)
    requires |ids| == |rewards| > 0 && CreditedServices(s, m, isOlas, ids[..|ids| - 1], rewards[..|ids| - 1])
    requires CreditedOne(m, n, isOlas, ids[|ids| - 1], rewards[|ids| - 1])
    ensures CreditedServices(s, n, isOlas, ids, rewards)
  {
    var id, reward := ids[|ids| - 1], rewards[|ids| - 1];
    forall x
      ensures SameRow(RowOf(n.services, x), EarnedRow(RowOf(s.services, x), if isOlas then ListedReward(ids, rewards, x) else 0))
    {
      assert SameRow(RowOf(n.services, x), EarnedRow(RowOf(m.services, x), if x == id && isOlas then reward else 0));
    }
  }

  lemma {:induction false} CreditsServices(s: State, c: Contract, isOlas: bool, e: Epoch, checkpoint: nat,
                                           ids: seq<ServiceId>, rewards: seq<nat>)
    requires Valid(s, NO_LAG) && |ids| == |rewards|
    ensures var o := AfterCredits(s, c, isOlas, e, checkpoint, ids, rewards);
            && (o.Done? <==> forall id | id in ids :: id in s.services)
            && (o.Done? ==> CreditedServices(s, o.state, isOlas, ids, rewards))
  {
    if ids != [] {
      var n := |ids| - 1;
      CreditsServices(s, c, isOlas, e, checkpoint, ids[..n], rewards[..n]);
      CreditsKeepValid(s, c, isOlas, e, checkpoint, ids[..n], rewards[..n]);
      assert ids == ids[..n] + [ids[n]];
      var o := AfterCredits(s, c, isOlas, e, checkpoint, ids[..n], rewards[..n]);
      if o.Done? {
        CreditServices(o.state, c, isOlas, e, checkpoint, ids[n], rewards[n]);
        var done := AfterCredits(s, c, isOlas, e, checkpoint, ids, rewards);
        assert done == AfterCredit(o.state, c, isOlas, e, checkpoint, ids[n], rewards[n]);
        if done.Done? {
          CreditedServicesNext(s, o.state, done.state, isOlas, ids, rewards);
        }
      }
    }
  }

  lemma {:induction false} AllTrackedServices(s: State, c: Contract, e: Epoch, checkpoint: nat, listed: seq<ServiceId>,
                                              tracker: seq<ServiceId>)
    requires forall id | id in tracker :: id in s.services
    ensures var o := AfterAllTracked(s, c, e, checkpoint, listed, tracker);
            o.Done? && SameServices(s, o.state) && o.state.global == s.global
  {
    if tracker != [] {
      var init, id := tracker[..|tracker| - 1], tracker[|tracker| - 1];
      assert id in tracker;
      AllTrackedServices(s, c, e, checkpoint, listed, init);
      var o := AfterAllTracked(s, c, e, checkpoint, listed, init);
      SetRewardKeepsServices(o.state, (id, c, e), 0, Some(checkpoint));
    }
  }

  lemma TrackerServices(s: State, c: Contract, e: Epoch, checkpoint: nat, listed: seq<ServiceId>)
    requires RowsValid(s)
    ensures var o := AfterTracker(s, c, e, checkpoint, listed); o.Done? && SameServices(s, o.state) && o.state.global == s.global
  {
    if (c, e) in s.trackers {
      AllTrackedServices(s, c, e, checkpoint, listed, s.trackers[(c, e)]);
    }
  }

  lemma CheckpointedServices(s: State, m: State, n: State, e: Event)
    requires e.Checkpoint? && |e.services| == |e.rewards|
    requires CreditedServices(s, m, e.isOlas, e.services, e.rewards) && SameServices(m, n)
    ensures forall id :: id in n.services <==> id in s.services
    ensures forall id :: SameRow(RowOf(n.services, id), RowNext(RowOf(s.services, id), e, id))
  {
    forall id
      ensures SameRow(RowOf(n.services, id), RowNext(RowOf(s.services, id), e, id))
    {
      assert SameRow(RowOf(n.services, id), RowOf(m.services, id));
    }
  }

  /** A checkpoint completes exactly when its lists match and every service listed is known. */
  lemma CheckpointServices(s: State, e: Event)
    requires Valid(s, NO_LAG) && e.Checkpoint?
    ensures Step(s, e).Done? <==> |e.services| == |e.rewards| && forall id | id in e.services :: id in s.services
    ensures Step(s, e).Done? ==> ServicesAfter(s, Step(s, e).state, e)
    ensures Step(s, e).Done? ==>
              Step(s, e).state.global == s.global.(rewards := s.global.rewards + if e.isOlas then Total(e.rewards) else 0)
  {
    if |e.services| == |e.rewards| {
      CreditsServices(s, e.contract, e.isOlas, e.epoch, e.checkpoint, e.services, e.rewards);
      CreditsKeepValid(s, e.contract, e.isOlas, e.epoch, e.checkpoint, e.services, e.rewards);
      var o := AfterCredits(s, e.contract, e.isOlas, e.epoch, e.checkpoint, e.services, e.rewards);
      if o.Done? {
        TrackerServices(o.state, e.contract, e.epoch, e.checkpoint, e.services);
        var t := AfterTracker(o.state, e.contract, e.epoch, e.checkpoint, e.services);
        CheckpointedServices(s, o.state, t.state, e);
      }
    }
  }

  /** What a completed event needs of the events before it. */
  ghost predicate Known(events: seq<Event>, e: Event)
  {
    match e
    case Staked(_, _, _, _, _) => true
    case Checkpoint(_, _, _, _, ids, rewards) => |ids| == |rewards| && forall id | id in ids :: EverStaked(events, id)
    case RewardClaimed(isOlas, id, _) => isOlas ==> EverStaked(events, id)
    case Unstaked(_, _, _, id, _, _) => EverStaked(events, id)
  }

  lemma StepServices(s: State, events: seq<Event>, e: Event)
    requires Valid(s, NO_LAG) && ServicesShow(s, events)
    ensures Step(s, e).Done? <==> Known(events, e)
    ensures Step(s, e).Done? ==> ServicesAfter(s, Step(s, e).state, e)
  {
    forall id
      ensures id in s.services <==> EverStaked(events, id)
    {
      assert ServiceShows(s, events, id);
    }
    match e
    case Staked(_, _, _, _, _) => StakeServices(s, e);
    case Checkpoint(_, _, _, _, _, _) => CheckpointServices(s, e);
    case RewardClaimed(_, _, _) =>
      if Step(s, e).Done? {
        ClaimServices(s, e);
      }
    case Unstaked(c, isOlas, forced, id, epoch, reward) =>
      UnstakeThrowsIff(s, c, isOlas, forced, id, epoch, reward);
      if Step(s, e).Done? {
        UnstakeServices(s, e);
      }
  }

  lemma ServiceShowsNext(s: State, n: State, events: seq<Event>, id: ServiceId)
    requires events != [] && ServiceShows(s, events[..|events| - 1], id) && ServicesAfter(s, n, events[|events| - 1])
    ensures ServiceShows(n, events, id)
  {
    StakedBefore(events, id);
    var e := events[|events| - 1];
    assert SameRow(RowOf(n.services, id), RowNext(RowOf(s.services, id), e, id));
  }

  // --- Global -----------------------------------------------------------------------------------

  /** What an event does to Global, with what is returned by it. */
  function GlobalAfter(g: Global, e: Event, returned: int): (n: Global)
  {
    Global(g.cumulativeStaked + StakedBy(e), g.cumulativeUnstaked + returned, g.currentStaked + StakedBy(e) - returned,
           g.rewards + (if e.Checkpoint? && e.isOlas then Total(e.rewards) else 0), g.claimed + PaidBy(e))
  }

  lemma UnstakeGlobal(s: State, e: Event)
    requires e.Unstaked? && Step(s, e).Done?
    ensures Step(s, e).state.global == GlobalAfter(s.global, e, RowOf(s.services, e.service).stakeAmount)
  {
  }

  lemma StakeGlobal(s: State, e: Event)
    requires e.Staked? && Step(s, e).Done?
    ensures Step(s, e).state.global == GlobalAfter(s.global, e, 0)
  {
  }

  lemma StepGlobal(s: State, events: seq<Event>, e: Event)
    requires Valid(s, NO_LAG) && ServicesShow(s, events) && Step(s, e).Done?
    ensures Step(s, e).state.global == GlobalAfter(s.global, e, ReturnedBy(events, e))
  {
    match e
    case Staked(_, _, _, _, _) => StakeGlobal(s, e);
    case Checkpoint(_, _, _, _, _, _) => CheckpointServices(s, e);
    case RewardClaimed(_, _, _) =>
    case Unstaked(_, _, _, id, _, _) =>
      UnstakeGlobal(s, e);
      assert ServiceShows(s, events, id);
  }

  // --- Trackers ---------------------------------------------------------------------------------

  lemma StepTrackers(s: State, events: seq<Event>, c: Contract, e: Epoch, id: ServiceId)
    requires events != [] && TrackersShow(s, events[..|events| - 1]) && Step(s, events[|events| - 1]).Done?
    ensures id in TrackerOf(Step(s, events[|events| - 1]).state, c, e) <==> IsTracked(events, c, e, id)
  {
    var init, last := events[..|events| - 1], events[|events| - 1];
    assert id in TrackerOf(s, c, e) <==> IsTracked(init, c, e, id);
    match last
    case Staked(_, _, x, _, _) => IncludingHas(TrackerOf(s, last.contract, last.epoch), x, id);
    case Checkpoint(_, isOlas, _, checkpoint, ids, rewards) =>
      CheckpointCarriesTracker(s, last.contract, isOlas, last.epoch, checkpoint, ids, rewards);
      assert id in TrackerOf(s, last.contract, last.epoch) <==> IsTracked(init, last.contract, last.epoch, id);
    case RewardClaimed(_, _, _) =>
    case Unstaked(_, _, _, _, _, _) =>
  }

  // --- Histories --------------------------------------------------------------------------------

  lemma ElsewhereIs(s: State, events: seq<Event>, id: ServiceId, c: Contract)
    requires ServicesShow(s, events)
    ensures StakedElsewhere(s, id, c) <==> LastContract(events, id) !in {None, Some(c)}
  {
    assert ServiceShows(s, events, id);
  }

  lemma CheckpointHistory(s: State, events: seq<Event>, k: HistoryKey)
    requires events != [] && events[|events| - 1].Checkpoint? && Step(s, events[|events| - 1]).Done?
    requires var init := events[..|events| - 1]; ServicesShow(s, init) && TrackersShow(s, init) && HistoryAt(s, k) == HistoryOf(init, k)
    ensures HistoryAt(Step(s, events[|events| - 1]).state, k) == HistoryOf(events, k)
  {
    var init, last := events[..|events| - 1], events[|events| - 1];
    var n := Step(s, last).state;
    CheckpointSetsRows(s, last.contract, last.isOlas, last.epoch, last.checkpoint, last.services, last.rewards);
    if (k.1, k.2) == (last.contract, last.epoch) {
      assert RowAfter(s, n, last.contract, last.epoch, last.checkpoint, last.services, last.rewards, k.0);
      assert k.0 in TrackerOf(s, last.contract, last.epoch) <==> IsTracked(init, last.contract, last.epoch, k.0);
      ElsewhereIs(s, init, k.0, last.contract);
    } else {
      assert SameHistory(s, n, k);
    }
  }

  lemma StepHistory(s: State, events: seq<Event>, k: HistoryKey)
    requires events != [] && RowsValid(s) && Step(s, events[|events| - 1]).Done?
    requires var init := events[..|events| - 1]; ServicesShow(s, init) && TrackersShow(s, init) && HistoryAt(s, k) == HistoryOf(init, k)
    ensures HistoryAt(Step(s, events[|events| - 1]).state, k) == HistoryOf(events, k)
  {
    if events[|events| - 1].Checkpoint? {
      CheckpointHistory(s, events, k);
    }
  }

  // --- Runs -------------------------------------------------------------------------------------

  lemma StepShows(s: State, events: seq<Event>)
    requires events != [] && Valid(s, NO_LAG) && Shows(s, events[..|events| - 1]) && Step(s, events[|events| - 1]).Done?
    ensures Shows(Step(s, events[|events| - 1]).state, events)
  {
    var init, last := events[..|events| - 1], events[|events| - 1];
    var n := Step(s, last).state;
    StepServices(s, init, last);
    StepGlobal(s, init, last);
    forall id
      ensures ServiceShows(n, events, id)
    {
      assert ServiceShows(s, init, id);
      ServiceShowsNext(s, n, events, id);
    }
    forall c, e, id
      ensures id in TrackerOf(n, c, e) <==> IsTracked(events, c, e, id)
    {
      StepTrackers(s, events, c, e, id);
    }
    forall k: HistoryKey
      ensures HistoryAt(n, k) == HistoryOf(events, k)
    {
      StepHistory(s, events, k);
    }
  }

  /**
   After any completed run the rows are what the events say: the services are those that staked, with
   their stakes, returns, rewards and claims, Global has the totals of all events, the trackers and the
   history rows are as the stakes, checkpoints and unstakes left them.
   */
  lemma {:induction false} RunShows(events: seq<Event>)
    ensures Run(INITIAL, events).Done? ==> Shows(Run(INITIAL, events).state, events)
  {
    if events != [] {
      var init := events[..|events| - 1];
      RunShows(init);
      RunIsValid(init);
      if Run(INITIAL, events).Done? {
        StepShows(Run(INITIAL, init).state, events);
      }
    }
  }

  ghost predicate AllKnown(events: seq<Event>)
  {
    forall i | 0 <= i < |events| :: Known(events[..i], events[i])
  }

  lemma AllKnownLast(events: seq<Event>)
    requires events != []
    ensures AllKnown(events) <==> AllKnown(events[..|events| - 1]) && Known(events[..|events| - 1], events[|events| - 1])
  {
    var init := events[..|events| - 1];
    forall i | 0 <= i < |init|
      ensures init[..i] == events[..i]
    {
    }
    if AllKnown(events) {
      forall i | 0 <= i < |init|
        ensures Known(init[..i], init[i])
      {
        assert init[..i] == events[..i];
      }
    }
  }

  /** A run completes exactly when checkpoints have a reward for each service and nothing concerns one that never staked. */
  lemma {:induction false} CompletesIff(events: seq<Event>)
    ensures Run(INITIAL, events).Done? <==> AllKnown(events)
  {
    if events != [] {
      var init := events[..|events| - 1];
      CompletesIff(init);
      AllKnownLast(events);
      RunShows(init);
      RunIsValid(init);
      if Run(INITIAL, init).Done? {
        StepServices(Run(INITIAL, init).state, init, events[|events| - 1]);
      }
    }
  }

  // --- Stakes without a return ------------------------------------------------------------------

  /** What a service had staked when it staked again: its return is lost, as an unstake returns the last stake only. */
  function Abandoned(events: seq<Event>, id: ServiceId): (a: nat)
  {
    if events == [] then 0
    else
      var init, last := events[..|events| - 1], events[|events| - 1];
      Abandoned(init, id) + if IsStakeOf(last, id) then LastStake(init, id) else 0
  }

  ghost predicate ReturnsBetweenStakes(events: seq<Event>, id: ServiceId)
  {
    forall i | 0 <= i < |events| && IsStakeOf(events[i], id) :: LastStake(events[..i], id) == 0
  }

  lemma {:induction false} AbandonedNoneIff(events: seq<Event>, id: ServiceId)
    ensures Abandoned(events, id) == 0 <==> ReturnsBetweenStakes(events, id)
  {
    if events != [] {
      var init := events[..|events| - 1];
      AbandonedNoneIff(init, id);
      forall i | 0 <= i < |init|
        ensures init[..i] == events[..i] && init[i] == events[i]
      {
      }
      if ReturnsBetweenStakes(events, id) {
        forall i | 0 <= i < |init| && IsStakeOf(init[i], id)
          ensures LastStake(init[..i], id) == 0
        {
          assert IsStakeOf(events[i], id) && init[..i] == events[..i];
        }
      }
    }
  }

  lemma {:induction false} StakedIsLastAndAbandoned(events: seq<Event>, id: ServiceId)
    ensures OfService(events, id).staked - OfService(events, id).returned == LastStake(events, id) + Abandoned(events, id)
  {
    if events != [] {
      StakedIsLastAndAbandoned(events[..|events| - 1], id);
    }
  }

  /** What a service has staked is its last stake, if not returned, exactly when it never staked on top of a stake. */
  lemma StakedIsLastStakeIff(events: seq<Event>, id: ServiceId)
    requires Run(INITIAL, events).Done?
    ensures RowOf(Run(INITIAL, events).state.services, id).staked == LastStake(events, id) <==> ReturnsBetweenStakes(events, id)
  {
    RunShows(events);
    assert ServiceShows(Run(INITIAL, events).state, events, id);
    StakedIsLastAndAbandoned(events, id);
    AbandonedNoneIff(events, id);
  }
}
