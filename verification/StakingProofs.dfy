/** What every run of staking events keeps. */
module StakingProofs {
  import opened Wrappers
  import opened Sums
  import opened Staking

  // --- Sums over services -----------------------------------------------------------------------

  function StakedBook(m: map<ServiceId, Service>): (b: map<ServiceId, int>)
  {
    map id | id in m :: m[id].staked
  }

  function EarnedBook(m: map<ServiceId, Service>): (b: map<ServiceId, int>)
  {
    map id | id in m :: m[id].earned
  }

  function ClaimedBook(m: map<ServiceId, Service>): (b: map<ServiceId, int>)
  {
    map id | id in m :: m[id].claimed
  }

  lemma SumsUpdate(m: map<ServiceId, Service>, id: ServiceId, r: Service)
    ensures Sum(StakedBook(m[id := r])) == Sum(StakedBook(m)) - RowOf(m, id).staked + r.staked
    ensures Sum(EarnedBook(m[id := r])) == Sum(EarnedBook(m)) - RowOf(m, id).earned + r.earned
    ensures Sum(ClaimedBook(m[id := r])) == Sum(ClaimedBook(m)) - RowOf(m, id).claimed + r.claimed
  {
    SumUpdate(StakedBook(m), id, r.staked);
    assert StakedBook(m[id := r]) == StakedBook(m)[id := r.staked];
    SumUpdate(EarnedBook(m), id, r.earned);
    assert EarnedBook(m[id := r]) == EarnedBook(m)[id := r.earned];
    SumUpdate(ClaimedBook(m), id, r.claimed);
    assert ClaimedBook(m[id := r]) == ClaimedBook(m)[id := r.claimed];
  }

  // --- The invariant ----------------------------------------------------------------------------

  /** What a handler has entered on services and not yet on Global. */
  datatype Lag = Lag(staked: int, earned: int, claimed: int)

  const NO_LAG := Lag(0, 0, 0)

  ghost predicate Balanced(s: State, lag: Lag)
  {
    && s.global.currentStaked + lag.staked == Sum(StakedBook(s.services))
    && s.global.currentStaked == s.global.cumulativeStaked - s.global.cumulativeUnstaked
    && s.global.rewards + lag.earned == Sum(EarnedBook(s.services))
    && s.global.claimed + lag.claimed == Sum(ClaimedBook(s.services))
  }

  /** A service's history rows. */
  function RowsOf(histories: map<HistoryKey, History>, id: ServiceId): (keys: set<HistoryKey>)
  {
    set k | k in histories && k.0 == id
  }

  ghost predicate RowsValid(s: State)
  {
    && (forall id | id in s.services :: 0 <= s.services[id].stakeAmount <= s.services[id].staked)
    && (forall id | id in s.services :: s.services[id].epochs == |RowsOf(s.histories, id)|)
    && (forall k | k in s.histories :: k.0 in s.services)
    && (forall t, id | t in s.trackers && id in s.trackers[t] :: id in s.services)
  }

  ghost predicate Valid(s: State, lag: Lag)
  {
    Balanced(s, lag) && RowsValid(s)
  }

  // --- History rows -----------------------------------------------------------------------------

  lemma RowsOfAdd(histories: map<HistoryKey, History>, k: HistoryKey, h: History, id: ServiceId)
    ensures RowsOf(histories[k := h], id) == if k.0 == id then RowsOf(histories, id) + {k} else RowsOf(histories, id)
  {
  }

  lemma HistoryKeepsValid(s: State, k: HistoryKey, lag: Lag)
    requires Valid(s, lag)
    ensures var o := WithHistory(s, k); o.Done? ==>
              && Valid(o.state, lag) && o.state.services.Keys == s.services.Keys && o.state.trackers == s.trackers
              && forall id | id in s.services :: o.state.services[id] == s.services[id].(epochs := o.state.services[id].epochs)
  {
    if k !in s.histories && k.0 in s.services {
      var n := WithHistory(s, k).state;
      SumsUpdate(s.services, k.0, n.services[k.0]);
      forall id | id in n.services
        ensures n.services[id].epochs == |RowsOf(n.histories, id)|
      {
        RowsOfAdd(s.histories, k, History(0, None), id);
        if id == k.0 {
          assert k !in RowsOf(s.histories, id);
        }
      }
    }
  }

  /** An existing history row is overwritten without changing anyone's number of rows. */
  lemma OverwriteKeepsValid(s: State, k: HistoryKey, h: History, lag: Lag)
    requires Valid(s, lag) && k in s.histories
    ensures Valid(s.(histories := s.histories[k := h]), lag)
  {
    var n := s.(histories := s.histories[k := h]);
    forall id | id in n.services
      ensures RowsOf(n.histories, id) == RowsOf(s.histories, id)
    {
      RowsOfAdd(s.histories, k, h, id);
    }
  }

  /** A row of a known service is changed, not its number of epochs. */
  lemma ServiceKeepsRowsValid(s: State, id: ServiceId, r: Service)
    requires RowsValid(s) && id in s.services && r.epochs == s.services[id].epochs && 0 <= r.stakeAmount <= r.staked
    ensures RowsValid(WithService(s, id, r))
  {
  }

  /** What a changed row of a service leaves to be entered on Global. */
  function Lagging(lag: Lag, was: Service, r: Service): (n: Lag)
  {
    Lag(lag.staked + (r.staked - was.staked), lag.earned + (r.earned - was.earned), lag.claimed + (r.claimed - was.claimed))
  }

  lemma ServiceKeepsBalance(s: State, id: ServiceId, r: Service, lag: Lag)
    requires Balanced(s, lag)
    ensures Balanced(WithService(s, id, r), Lagging(lag, RowOf(s.services, id), r))
  {
    SumsUpdate(s.services, id, r);
  }

  lemma ServiceKeepsValid(s: State, id: ServiceId, r: Service, lag: Lag)
    requires Valid(s, lag)
    requires id in s.services && r.epochs == s.services[id].epochs && 0 <= r.stakeAmount <= r.staked
    ensures Valid(WithService(s, id, r), Lagging(lag, s.services[id], r))
  {
    ServiceKeepsBalance(s, id, r, lag);
    ServiceKeepsRowsValid(s, id, r);
  }

  lemma SetRewardKeepsValid(s: State, k: HistoryKey, reward: nat, checkpoint: Option<nat>, lag: Lag)
    requires Valid(s, lag)
    ensures SetReward(s, k, reward, checkpoint).Done? ==> Valid(SetReward(s, k, reward, checkpoint).state, lag)
  {
    HistoryKeepsValid(s, k, lag);
    if WithHistory(s, k).Done? {
      OverwriteKeepsValid(WithHistory(s, k).state, k, History(reward, checkpoint), lag);
    }
  }

  // --- Stakes -----------------------------------------------------------------------------------

  lemma NewServiceHasNoRows(s: State, id: ServiceId)
    requires RowsValid(s) && id !in s.services
    ensures RowsOf(s.histories, id) == {}
  {
  }

  lemma IncludingHas(ids: seq<ServiceId>, id: ServiceId, x: ServiceId)
    ensures x in Including(ids, id) <==> x in ids || x == id
  {
  }

  lemma EnrolledRowsValid(s: State, c: Contract, id: ServiceId, e: Epoch, r: Service)
    requires RowsValid(s) && r.epochs == RowOf(s.services, id).epochs && 0 <= r.stakeAmount <= r.staked
    ensures RowsValid(Enrolled(s, c, id, e, r))
  {
    if id !in s.services {
      NewServiceHasNoRows(s, id);
    }
    forall x
      ensures x in Including(TrackerOf(s, c, e), id) <==> x in TrackerOf(s, c, e) || x == id
    {
      IncludingHas(TrackerOf(s, c, e), id, x);
    }
  }

  lemma EnrolledKeepsValid(s: State, c: Contract, id: ServiceId, e: Epoch, r: Service, lag: Lag)
    requires Valid(s, lag) && r.epochs == RowOf(s.services, id).epochs && 0 <= r.stakeAmount <= r.staked
    ensures Valid(Enrolled(s, c, id, e, r), Lagging(lag, RowOf(s.services, id), r))
  {
    ServiceKeepsBalance(s, id, r, lag);
    assert Balanced(Enrolled(s, c, id, e, r), Lagging(lag, RowOf(s.services, id), r));
    EnrolledRowsValid(s, c, id, e, r);
  }

  lemma GlobalCatchesUp(s: State, staked: int, claimed: nat)
    ensures Valid(s, Lag(staked, 0, 0)) ==> Valid(StakeOnGlobal(s, staked), NO_LAG)
    ensures Valid(s, Lag(0, 0, claimed)) ==> Valid(ClaimOnGlobal(s, claimed), NO_LAG)
    ensures Valid(s, Lag(-staked, 0, claimed)) ==> Valid(ClaimOnGlobal(UnstakeOnGlobal(s, staked), claimed), NO_LAG)
  {
  }

  lemma StakedKeepsValid(s: State, c: Contract, isOlas: bool, id: ServiceId, e: Epoch, locked: nat)
    requires Valid(s, NO_LAG)
    ensures var o := AfterStaked(s, c, isOlas, id, e, locked); o.Done? && Valid(o.state, NO_LAG)
  {
    var amount := if isOlas then locked else 0;
    var r := StakedRow(RowOf(s.services, id), c, isOlas, amount);
    ServiceStakeNonNegative(s, id);
    EnrolledKeepsValid(s, c, id, e, r, NO_LAG);
    assert Lagging(NO_LAG, RowOf(s.services, id), r) == Lag(amount, 0, 0);
    HistoryKeepsValid(Enrolled(s, c, id, e, r), (id, c, e), Lag(amount, 0, 0));
    GlobalCatchesUp(WithHistory(Enrolled(s, c, id, e, r), (id, c, e)).state, amount, 0);
  }

  lemma ServiceStakeNonNegative(s: State, id: ServiceId)
    requires RowsValid(s)
    ensures RowOf(s.services, id).staked >= 0
  {
  }

  // --- Checkpoints ------------------------------------------------------------------------------

  lemma CreditKeepsValid(s: State, c: Contract, isOlas: bool, e: Epoch, checkpoint: nat, id: ServiceId, reward: nat, due: int)
    requires Valid(s, Lag(0, due, 0))
    ensures var o := AfterCredit(s, c, isOlas, e, checkpoint, id, reward);
            o.Done? ==> Valid(o.state, Lag(0, if isOlas then due + reward else due, 0))
  {
    if id in s.services && isOlas {
      var r := EarnedRow(s.services[id], reward);
      ServiceKeepsValid(s, id, r, Lag(0, due, 0));
      assert Lagging(Lag(0, due, 0), s.services[id], r) == Lag(0, due + reward, 0);
      SetRewardKeepsValid(WithService(s, id, r), (id, c, e), reward, Some(checkpoint), Lag(0, due + reward, 0));
    } else {
      SetRewardKeepsValid(s, (id, c, e), reward, Some(checkpoint), Lag(0, due, 0));
      UnknownHasNoHistory(s, c, e, checkpoint, id, reward);
    }
  }

  /** A reward listed for a service never staked aborts the batch. */
  lemma UnknownHasNoHistory(s: State, c: Contract, e: Epoch, checkpoint: nat, id: ServiceId, reward: nat)
    requires RowsValid(s)
    ensures id !in s.services ==> SetReward(s, (id, c, e), reward, Some(checkpoint)).Thrown?
  {
  }

  lemma {:induction false} CreditsKeepValid(s: State, c: Contract, isOlas: bool, e: Epoch, checkpoint: nat,
                                            ids: seq<ServiceId>, rewards: seq<nat>)
    requires Valid(s, NO_LAG) && |ids| == |rewards|
    ensures var o := AfterCredits(s, c, isOlas, e, checkpoint, ids, rewards);
            o.Done? ==> Valid(o.state, Lag(0, if isOlas then Total(rewards) else 0, 0))
  {
    if ids != [] {
      var n := |ids| - 1;
      CreditsKeepValid(s, c, isOlas, e, checkpoint, ids[..n], rewards[..n]);
      var o := AfterCredits(s, c, isOlas, e, checkpoint, ids[..n], rewards[..n]);
      if o.Done? {
        CreditKeepsValid(o.state, c, isOlas, e, checkpoint, ids[n], rewards[n], if isOlas then Total(rewards[..n]) else 0);
      }
    }
  }

  lemma {:induction false} AllTrackedKeepsValid(s: State, c: Contract, e: Epoch, checkpoint: nat, listed: seq<ServiceId>,
                                                tracker: seq<ServiceId>, lag: Lag)
    requires Valid(s, lag)
    ensures var o := AfterAllTracked(s, c, e, checkpoint, listed, tracker); o.Done? ==> Valid(o.state, lag)
  {
    if tracker != [] {
      AllTrackedKeepsValid(s, c, e, checkpoint, listed, tracker[..|tracker| - 1], lag);
      var o := AfterAllTracked(s, c, e, checkpoint, listed, tracker[..|tracker| - 1]);
      if o.Done? {
        SetRewardKeepsValid(o.state, (tracker[|tracker| - 1], c, e), 0, Some(checkpoint), lag);
      }
    }
  }

  lemma {:induction false} DeduplicatedHas(a: seq<ServiceId>, x: ServiceId)
    ensures x in Deduplicated(a) <==> x in a
  {
    if a != [] {
      DeduplicatedHas(a[..|a| - 1], x);
      IncludingHas(Deduplicated(a[..|a| - 1]), a[|a| - 1], x);
    }
  }

  lemma {:induction false} UnionHas(a: seq<ServiceId>, b: seq<ServiceId>, x: ServiceId)
    ensures x in Union(a, b) <==> x in a || x in b
  {
    if b == [] {
      DeduplicatedHas(a, x);
    } else {
      UnionHas(a, b[..|b| - 1], x);
      IncludingHas(Union(a, b[..|b| - 1]), b[|b| - 1], x);
    }
  }

  /** Tracking services that are known. */
  lemma TrackKeepsValid(s: State, t: (Contract, Epoch), ids: seq<ServiceId>, lag: Lag)
    requires Valid(s, lag) && forall id | id in ids :: id in s.services
    ensures Valid(s.(trackers := s.trackers[t := ids]), lag)
  {
  }

  lemma TrackerKeepsValid(s: State, c: Contract, e: Epoch, checkpoint: nat, listed: seq<ServiceId>, lag: Lag)
    requires Valid(s, lag)
    ensures var o := AfterTracker(s, c, e, checkpoint, listed); o.Done? ==> Valid(o.state, lag)
  {
    if (c, e) in s.trackers {
      var tracker := s.trackers[(c, e)];
      AllTrackedKeepsValid(s, c, e, checkpoint, listed, tracker, lag);
      AllTrackedKeepsServices(s, c, e, checkpoint, listed, tracker);
      var o := AfterAllTracked(s, c, e, checkpoint, listed, tracker);
      if o.Done? {
        var next := Union(TrackerOf(o.state, c, e + 1), tracker);
        forall id | id in next
          ensures id in o.state.services
        {
          UnionHas(TrackerOf(o.state, c, e + 1), tracker, id);
        }
        TrackKeepsValid(o.state, (c, e + 1), next, lag);
      }
    }
  }

  lemma {:induction false} AllTrackedKeepsServices(s: State, c: Contract, e: Epoch, checkpoint: nat, listed: seq<ServiceId>,
                                                   tracker: seq<ServiceId>)
    ensures var o := AfterAllTracked(s, c, e, checkpoint, listed, tracker);
            o.Done? ==> o.state.services.Keys == s.services.Keys && o.state.trackers == s.trackers
  {
    if tracker != [] {
      AllTrackedKeepsServices(s, c, e, checkpoint, listed, tracker[..|tracker| - 1]);
    }
  }

  lemma CheckpointKeepsValid(s: State, c: Contract, isOlas: bool, e: Epoch, checkpoint: nat, ids: seq<ServiceId>, rewards: seq<nat>)
    requires Valid(s, NO_LAG)
    ensures var o := AfterCheckpoint(s, c, isOlas, e, checkpoint, ids, rewards); o.Done? ==> Valid(o.state, NO_LAG)
  {
    if |ids| == |rewards| {
      CreditsKeepValid(s, c, isOlas, e, checkpoint, ids, rewards);
      var o := AfterCredits(s, c, isOlas, e, checkpoint, ids, rewards);
      if o.Done? {
        TrackerKeepsValid(o.state, c, e, checkpoint, ids, Lag(0, if isOlas then Total(rewards) else 0, 0));
      }
    }
  }

  // --- Claims and unstakes ----------------------------------------------------------------------

  lemma ClaimedKeepsValid(s: State, isOlas: bool, id: ServiceId, reward: nat)
    requires Valid(s, NO_LAG)
    ensures var o := AfterClaimed(s, isOlas, id, reward); o.Done? ==> Valid(o.state, NO_LAG)
  {
    if isOlas && id in s.services {
      var r := ClaimedRow(s.services[id], reward);
      ServiceKeepsValid(s, id, r, NO_LAG);
      assert Lagging(NO_LAG, s.services[id], r) == Lag(0, 0, reward);
      GlobalCatchesUp(WithService(s, id, r), 0, reward);
    }
  }

  lemma SetPaidKeepsValid(s: State, k: HistoryKey, reward: nat, lag: Lag)
    requires Valid(s, lag)
    ensures SetPaid(s, k, reward).Done? ==> Valid(SetPaid(s, k, reward).state, lag)
  {
    HistoryKeepsValid(s, k, lag);
    if WithHistory(s, k).Done? {
      var m := WithHistory(s, k).state;
      OverwriteKeepsValid(m, k, m.histories[k].(reward := reward), lag);
    }
  }

  /** An unstake aborts its batch exactly when the service never staked, whatever the contract. */
  lemma UnstakeThrowsIff(s: State, c: Contract, isOlas: bool, forced: bool, id: ServiceId, e: Epoch, reward: nat)
    requires RowsValid(s)
    ensures AfterUnstaked(s, c, isOlas, forced, id, e, reward).Thrown? <==> id !in s.services
  {
    assert id !in s.services ==> (id, c, e) !in s.histories;
  }

  lemma PaidKeepsValid(s: State, k: HistoryKey, reward: nat, amount: int, paid: nat)
    requires Valid(s, Lag(-amount, 0, paid))
    ensures SetPaid(s, k, reward).Done? ==> Valid(ClaimOnGlobal(UnstakeOnGlobal(SetPaid(s, k, reward).state, amount), paid), NO_LAG)
  {
    SetPaidKeepsValid(s, k, reward, Lag(-amount, 0, paid));
    if SetPaid(s, k, reward).Done? {
      GlobalCatchesUp(SetPaid(s, k, reward).state, amount, paid);
    }
  }

  lemma UnstakedKeepsValid(s: State, c: Contract, isOlas: bool, forced: bool, id: ServiceId, e: Epoch, reward: nat)
    requires Valid(s, NO_LAG)
    ensures var o := AfterUnstaked(s, c, isOlas, forced, id, e, reward); o.Done? ==> Valid(o.state, NO_LAG)
  {
    if id in s.services {
      var was, paid := s.services[id], if !forced && isOlas then reward else 0;
      ServiceKeepsValid(s, id, UnstakedRow(was, paid), NO_LAG);
      assert Lagging(NO_LAG, was, UnstakedRow(was, paid)) == Lag(-was.stakeAmount, 0, paid);
      PaidKeepsValid(WithService(s, id, UnstakedRow(was, paid)), (id, c, e), reward, was.stakeAmount, paid);
    } else {
      UnstakeThrowsIff(s, c, isOlas, forced, id, e, reward);
    }
  }

  // --- Runs -------------------------------------------------------------------------------------

  lemma StepKeepsValid(s: State, event: Event)
    requires Valid(s, NO_LAG)
    ensures Step(s, event).Done? ==> Valid(Step(s, event).state, NO_LAG)
  {
    match event
    case Staked(c, isOlas, id, e, locked) => StakedKeepsValid(s, c, isOlas, id, e, locked);
    case Checkpoint(c, isOlas, e, checkpoint, ids, rewards) => CheckpointKeepsValid(s, c, isOlas, e, checkpoint, ids, rewards);
    case RewardClaimed(isOlas, id, reward) => ClaimedKeepsValid(s, isOlas, id, reward);
    case Unstaked(c, isOlas, forced, id, e, reward) => UnstakedKeepsValid(s, c, isOlas, forced, id, e, reward);
  }

  lemma StepKeepsAny(s: State, event: Event)
    ensures Valid(s, NO_LAG) && Step(s, event).Done? ==> Valid(Step(s, event).state, NO_LAG)
  {
    if Valid(s, NO_LAG) {
      StepKeepsValid(s, event);
    }
  }

  lemma {:induction false} RunIsValid(events: seq<Event>)
    ensures Run(INITIAL, events).Done? ==> Valid(Run(INITIAL, events).state, NO_LAG)
  {
    if events != [] {
      RunIsValid(events[..|events| - 1]);
      if Run(INITIAL, events[..|events| - 1]).Done? {
        StepKeepsValid(Run(INITIAL, events[..|events| - 1]).state, events[|events| - 1]);
      }
    } else {
      assert StakedBook(map[]) == map[] && EarnedBook(map[]) == map[] && ClaimedBook(map[]) == map[];
    }
  }

  /** Nothing is staked below zero: not on a service, and so not in Global. */
  lemma StakedIsNonNegative(s: State)
    requires Valid(s, NO_LAG)
    ensures s.global.currentStaked >= 0
    ensures forall id | id in s.services :: 0 <= s.services[id].staked <= s.global.currentStaked
  {
    SumNonNegative(StakedBook(s.services));
    forall id | id in s.services
      ensures 0 <= s.services[id].staked <= s.global.currentStaked
    {
      assert StakedBook(s.services)[id] == s.services[id].staked;
    }
  }
}
