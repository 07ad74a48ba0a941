/** What a checkpoint leaves in the history rows and the trackers of its contract. */
module StakingEpochs {
  import opened Wrappers
  import opened Staking
  import opened StakingProofs

  /** The reward listed last for a service. */
  function LastReward(ids: seq<ServiceId>, rewards: seq<nat>, id: ServiceId): (r: nat)
    requires |ids| == |rewards| && id in ids
  {
    var n := |ids| - 1;
    if ids[n] == id then rewards[n]
    else
      assert id in ids[..n];
      LastReward(ids[..n], rewards[..n], id)
  }

  /** Between s and n rows of other epochs, trackers and contracts staked in are as they were. */
  ghost predicate OnlyEpoch(s: State, n: State, c: Contract, e: Epoch)
  {
    && n.trackers == s.trackers && n.services.Keys == s.services.Keys
    && (forall id | id in s.services :: n.services[id].latest == s.services[id].latest)
    && (forall k | k in s.histories :: k in n.histories)
    && (forall k: HistoryKey | (k.1, k.2) != (c, e) :: SameHistory(s, n, k))
  }

  ghost predicate SameHistory(s: State, n: State, k: HistoryKey)
  {
    (k in n.histories <==> k in s.histories) && (k in s.histories ==> n.histories[k] == s.histories[k])
  }

  ghost predicate Holds(s: State, k: HistoryKey, h: History)
  {
    k in s.histories && s.histories[k] == h
  }

  lemma SetRewardSets(s: State, id: ServiceId, c: Contract, e: Epoch, reward: nat, checkpoint: Option<nat>)
    ensures var o := SetReward(s, (id, c, e), reward, checkpoint); o.Done? ==>
              && OnlyEpoch(s, o.state, c, e) && Holds(o.state, (id, c, e), History(reward, checkpoint))
              && forall k: HistoryKey | k != (id, c, e) :: SameHistory(s, o.state, k)
  {
  }

  lemma CreditSets(s: State, c: Contract, isOlas: bool, e: Epoch, checkpoint: nat, id: ServiceId, reward: nat)
    ensures var o := AfterCredit(s, c, isOlas, e, checkpoint, id, reward); o.Done? ==>
              && OnlyEpoch(s, o.state, c, e) && Holds(o.state, (id, c, e), History(reward, Some(checkpoint)))
              && forall k: HistoryKey | k != (id, c, e) :: SameHistory(s, o.state, k)
  {
    var m := if id in s.services && isOlas then WithService(s, id, EarnedRow(s.services[id], reward)) else s;
    SetRewardSets(m, id, c, e, reward, Some(checkpoint));
    assert m.histories == s.histories && m.trackers == s.trackers;
  }

  /** What crediting the listed services has done to the rows of the epoch. */
  ghost predicate Credited(s: State, n: State, c: Contract, e: Epoch, checkpoint: nat, ids: seq<ServiceId>, rewards: seq<nat>)
    requires |ids| == |rewards|
  {
    && OnlyEpoch(s, n, c, e)
    && (forall id | id in ids :: Holds(n, (id, c, e), History(LastReward(ids, rewards, id), Some(checkpoint))))
    && forall k: HistoryKey | k.0 !in ids :: SameHistory(s, n, k)
  }

  lemma CreditedNext(s: State, m: State, n: State, c: Contract, e: Epoch, checkpoint: nat, ids: seq<ServiceId>, rewards: seq<nat>)
    requires |ids| == |rewards| > 0
    requires Credited(s, m, c, e, checkpoint, ids[..|ids| - 1], rewards[..|ids| - 1])
    requires var id, reward := ids[|ids| - 1], rewards[|ids| - 1];
             && OnlyEpoch(m, n, c, e) && Holds(n, (id, c, e), History(reward, Some(checkpoint)))
             && forall k: HistoryKey | k != (id, c, e) :: SameHistory(m, n, k)
    ensures Credited(s, n, c, e, checkpoint, ids, rewards)
  {
    var last := |ids| - 1;
    assert ids == ids[..last] + [ids[last]];
    forall id | id in ids
      ensures Holds(n, (id, c, e), History(LastReward(ids, rewards, id), Some(checkpoint)))
    {
      if id != ids[last] {
        assert id in ids[..last] && SameHistory(m, n, (id, c, e));
      }
    }
    forall k: HistoryKey | (k.1, k.2) != (c, e) || k.0 !in ids
      ensures SameHistory(s, n, k)
    {
      assert SameHistory(s, m, k) && SameHistory(m, n, k);
    }
  }

  /** Every listed service has its row linked to the checkpoint, with the reward listed last for it. */
  lemma {:induction false} CreditsSet(s: State, c: Contract, isOlas: bool, e: Epoch, checkpoint: nat,
                                      ids: seq<ServiceId>, rewards: seq<nat>)
    requires |ids| == |rewards|
    ensures var o := AfterCredits(s, c, isOlas, e, checkpoint, ids, rewards);
            o.Done? ==> Credited(s, o.state, c, e, checkpoint, ids, rewards)
  {
    if ids != [] {
      var n := |ids| - 1;
      CreditsSet(s, c, isOlas, e, checkpoint, ids[..n], rewards[..n]);
      var before, after := AfterCredits(s, c, isOlas, e, checkpoint, ids[..n], rewards[..n]),
                           AfterCredits(s, c, isOlas, e, checkpoint, ids, rewards);
      if after.Done? {
        CreditSets(before.state, c, isOlas, e, checkpoint, ids[n], rewards[n]);
        CreditedNext(s, before.state, after.state, c, e, checkpoint, ids, rewards);
      }
    }
  }

  /** Every tracked service not listed has a row without reward, but for those staked elsewhere. */
  lemma {:induction false} AllTrackedSet(s: State, c: Contract, e: Epoch, checkpoint: nat, listed: seq<ServiceId>,
                                         tracker: seq<ServiceId>)
    ensures var o := AfterAllTracked(s, c, e, checkpoint, listed, tracker); o.Done? ==>
              && OnlyEpoch(s, o.state, c, e)
              && (forall id | id in tracker && id !in listed && !StakedElsewhere(s, id, c) ::
                    Holds(o.state, (id, c, e), History(0, Some(checkpoint))))
              && forall k: HistoryKey | k.0 in listed || k.0 !in tracker || StakedElsewhere(s, k.0, c) :: SameHistory(s, o.state, k)
  {
    if tracker != [] {
      var init, id := tracker[..|tracker| - 1], tracker[|tracker| - 1];
      assert tracker == init + [id];
      AllTrackedSet(s, c, e, checkpoint, listed, init);
      var o := AfterAllTracked(s, c, e, checkpoint, listed, init);
      if o.Done? {
        SetRewardSets(o.state, id, c, e, 0, Some(checkpoint));
      }
    }
  }

  lemma {:induction false} DeduplicatedOnce(a: seq<ServiceId>)
    ensures forall i, j | 0 <= i < j < |Deduplicated(a)| :: Deduplicated(a)[i] != Deduplicated(a)[j]
  {
    if a != [] {
      DeduplicatedOnce(a[..|a| - 1]);
    }
  }

  lemma {:induction false} UnionOnce(a: seq<ServiceId>, b: seq<ServiceId>)
    ensures forall i, j | 0 <= i < j < |Union(a, b)| :: Union(a, b)[i] != Union(a, b)[j]
  {
    if b == [] {
      DeduplicatedOnce(a);
    } else {
      UnionOnce(a, b[..|b| - 1]);
    }
  }

  /** What a completed checkpoint of epoch e on contract c leaves for a service's row of that epoch. */
  ghost predicate RowAfter(s: State, n: State, c: Contract, e: Epoch, checkpoint: nat, ids: seq<ServiceId>, rewards: seq<nat>,
                           id: ServiceId)
    requires |ids| == |rewards|
  {
    if id in ids then Holds(n, (id, c, e), History(LastReward(ids, rewards, id), Some(checkpoint)))
    else if id in TrackerOf(s, c, e) && !StakedElsewhere(s, id, c) then Holds(n, (id, c, e), History(0, Some(checkpoint)))
    else SameHistory(s, n, (id, c, e))
  }

  lemma CheckpointSetsRows(s: State, c: Contract, isOlas: bool, e: Epoch, checkpoint: nat, ids: seq<ServiceId>, rewards: seq<nat>)
    ensures var o := AfterCheckpoint(s, c, isOlas, e, checkpoint, ids, rewards); o.Done? ==>
              && |ids| == |rewards|
              && (forall id :: RowAfter(s, o.state, c, e, checkpoint, ids, rewards, id))
              && (forall k: HistoryKey | (k.1, k.2) != (c, e) :: SameHistory(s, o.state, k))
  {
    var o := AfterCheckpoint(s, c, isOlas, e, checkpoint, ids, rewards);
    if o.Done? {
      CreditsSet(s, c, isOlas, e, checkpoint, ids, rewards);
      var m := AfterCredits(s, c, isOlas, e, checkpoint, ids, rewards).state;
      if (c, e) in m.trackers {
        AllTrackedSet(m, c, e, checkpoint, ids, m.trackers[(c, e)]);
      }
    }
  }

  /** `next` lists exactly the services of either list, each once. */
  ghost predicate Joins(next: seq<ServiceId>, a: seq<ServiceId>, b: seq<ServiceId>)
  {
    && (forall id :: id in next <==> id in a || id in b)
    && (forall i, j | 0 <= i < j < |next| :: next[i] != next[j])
  }

  lemma UnionJoins(a: seq<ServiceId>, b: seq<ServiceId>)
    ensures Joins(Union(a, b), a, b)
  {
    UnionOnce(a, b);
    forall id
      ensures id in Union(a, b) <==> id in a || id in b
    {
      UnionHas(a, b, id);
    }
  }

  /** The whole tracker is carried into the next epoch beside what is tracked there, and no other tracker changes. */
  lemma CheckpointCarriesTracker(s: State, c: Contract, isOlas: bool, e: Epoch, checkpoint: nat, ids: seq<ServiceId>, rewards: seq<nat>)
    ensures var o := AfterCheckpoint(s, c, isOlas, e, checkpoint, ids, rewards); o.Done? ==>
              if (c, e) in s.trackers then
                && o.state.trackers.Keys == s.trackers.Keys + {(c, e + 1)}
                && Joins(TrackerOf(o.state, c, e + 1), TrackerOf(s, c, e + 1), s.trackers[(c, e)])
                && forall t | t in s.trackers && t != (c, e + 1) :: o.state.trackers[t] == s.trackers[t]
              else o.state.trackers == s.trackers
  {
    var o := AfterCheckpoint(s, c, isOlas, e, checkpoint, ids, rewards);
    if o.Done? {
      CreditsSet(s, c, isOlas, e, checkpoint, ids, rewards);
      if (c, e) in s.trackers {
        var m := AfterCredits(s, c, isOlas, e, checkpoint, ids, rewards).state;
        AllTrackedSet(m, c, e, checkpoint, ids, m.trackers[(c, e)]);
        UnionJoins(TrackerOf(s, c, e + 1), s.trackers[(c, e)]);
      }
    }
  }

  // --- The reward of an unstake -----------------------------------------------------------------

  /**
   When a row keeps the reward it has, from an unstake say, through a checkpoint of its epoch: if the
   checkpoint lists the service, when that is the reward listed last; if not, when there is none to lose,
   or the service is not tracked, or is staked elsewhere by now.
   */
  lemma KeepsRewardIff(s: State, c: Contract, isOlas: bool, e: Epoch, checkpoint: nat, ids: seq<ServiceId>, rewards: seq<nat>,
                       id: ServiceId)
    requires |ids| == |rewards| && AfterCheckpoint(s, c, isOlas, e, checkpoint, ids, rewards).Done?
    requires (id, c, e) in s.histories
    ensures var n, reward := AfterCheckpoint(s, c, isOlas, e, checkpoint, ids, rewards).state, s.histories[(id, c, e)].reward;
            (id, c, e) in n.histories && n.histories[(id, c, e)].reward == reward
            <==> if id in ids then LastReward(ids, rewards, id) == reward
                 else reward == 0 || id !in TrackerOf(s, c, e) || StakedElsewhere(s, id, c)
  {
    CheckpointSetsRows(s, c, isOlas, e, checkpoint, ids, rewards);
    assert RowAfter(s, AfterCheckpoint(s, c, isOlas, e, checkpoint, ids, rewards).state, c, e, checkpoint, ids, rewards, id);
  }

  /** A service stakes, unstakes with a reward, and the checkpoint of the epoch does not list it. */
  function UnstakedThenMissed(c: Contract, id: ServiceId, e: Epoch, locked: nat, reward: nat, checkpoint: nat): (events: seq<Event>)
  {
    [Staked(c, true, id, e, locked), Unstaked(c, true, false, id, e, reward), Checkpoint(c, true, e, checkpoint, [], [])]
  }

  /** Its reward is claimed on the service, and gone from the row of the epoch. */
  lemma UnstakeRewardIsLost(c: Contract, id: ServiceId, e: Epoch, locked: nat, reward: nat, checkpoint: nat)
    ensures var o := Run(INITIAL, UnstakedThenMissed(c, id, e, locked, reward, checkpoint));
            && o.Done? && id in o.state.services && o.state.services[id].claimed == reward
            && Holds(o.state, (id, c, e), History(0, Some(checkpoint)))
  {
    var all := UnstakedThenMissed(c, id, e, locked, reward, checkpoint);
    assert all[..2][..1] == all[..1] && all[..1][..0] == [];
    assert Run(INITIAL, []) == Done(INITIAL);
    var s1 := Run(INITIAL, all[..1]);
    assert s1 == AfterStaked(INITIAL, c, true, id, e, locked) && s1.Done?;
    var s2 := Run(INITIAL, all[..2]);
    assert s2 == AfterUnstaked(s1.state, c, true, false, id, e, reward) && s2.Done?;
    assert Holds(s2.state, (id, c, e), History(reward, None)) && TrackerOf(s2.state, c, e) == [id];
    var o := Run(INITIAL, all);
    assert o == AfterCheckpoint(s2.state, c, true, e, checkpoint, [], []);
    NothingListed(s2.state, c, e, checkpoint, id);
  }

  lemma NothingListed(s: State, c: Contract, e: Epoch, checkpoint: nat, id: ServiceId)
    requires id in s.services && s.services[id].latest.None? && (c, e) in s.trackers && s.trackers[(c, e)] == [id]
    ensures var o := AfterCheckpoint(s, c, true, e, checkpoint, [], []);
            && o.Done? && id in o.state.services && o.state.services[id].claimed == s.services[id].claimed
            && Holds(o.state, (id, c, e), History(0, Some(checkpoint)))
  {
    var none, tracker: seq<ServiceId> := [], [id];
    assert AfterCredits(s, c, true, e, checkpoint, [], []) == Done(s);
    assert tracker[..0] == none;
    assert AfterAllTracked(s, c, e, checkpoint, [], none) == Done(s);
    assert AfterAllTracked(s, c, e, checkpoint, [], tracker) == AfterTracked(s, c, e, checkpoint, [], id);
  }
}
