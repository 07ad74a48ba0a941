/** The staking handlers as the squid runs them; a handler that returns false has thrown and its batch is dropped. */
module StakingSquid {
  import opened Wrappers
  import opened Staking
  import StakingProofs

  class Squid {
    var services: map<ServiceId, Service>
    var histories: map<HistoryKey, History>
    var trackers: map<(Contract, Epoch), seq<ServiceId>>
    var global: Global

    /** Global and the services agree, and every service's epochs are its history rows. */
    ghost predicate Valid()
      reads this
    {
      StakingProofs.Valid(View(), StakingProofs.NO_LAG)
    }

    constructor ()
      ensures View() == INITIAL
    {
      services, histories, trackers, global := map[], map[], map[], Global(0, 0, 0, 0, 0);
    }

    function View(): (s: State)
      reads this
    {
      State(services, histories, trackers, global)
    }

    method GetOrCreateServiceRewardsHistory(k: HistoryKey) returns (ok: bool)
      modifies this`services, this`histories
      ensures ok == WithHistory(old(View()), k).Done?
      ensures ok ==> View() == WithHistory(old(View()), k).state
    {
      if k !in histories {
        if k.0 !in services {
          return false;
        }
        histories := histories[k := History(0, None)];
        services := services[k.0 := services[k.0].(epochs := services[k.0].epochs + 1)];
      }
      return true;
    }

    method HandleServiceStaked(c: Contract, isOlas: bool, id: ServiceId, e: Epoch, locked: nat) returns (ok: bool)
      modifies this
      ensures ok == Step(old(View()), Staked(c, isOlas, id, e, locked)).Done?
      ensures ok ==> View() == Step(old(View()), Staked(c, isOlas, id, e, locked)).state
      ensures ok && old(Valid()) ==> Valid()
    {
      StakingProofs.StepKeepsAny(View(), Staked(c, isOlas, id, e, locked));
      ok := Stake(c, isOlas, id, e, if isOlas then locked else 0);
    }

    /** The service, the tracker, the history row and Global of a stake. */
    method Stake(c: Contract, isOlas: bool, id: ServiceId, e: Epoch, amount: nat) returns (ok: bool)
      modifies this
      ensures ok == AfterStake(old(View()), c, isOlas, id, e, amount).Done?
      ensures ok ==> View() == AfterStake(old(View()), c, isOlas, id, e, amount).state
    {
      var service := if id in services then services[id] else Service(0, 0, false, 0, 0, 0, None);
      service := service.(staked := service.staked + amount, stakeAmount := amount);
      service := service.(hasOlasStake := service.hasOlasStake || isOlas, latest := Some(c));
      services := services[id := service];
      var tracker := if (c, e) in trackers then trackers[(c, e)] else [];
      if id !in tracker {
        tracker := tracker + [id];
      }
      trackers := trackers[(c, e) := tracker];
      assert View() == Enrolled(old(View()), c, id, e, StakedRow(RowOf(old(View()).services, id), c, isOlas, amount));
      ok := GetOrCreateServiceRewardsHistory((id, c, e));
      if ok {
        global := global.(cumulativeStaked := global.cumulativeStaked + amount, currentStaked := global.currentStaked + amount);
      }
    }

    method HandleCheckpoint(c: Contract, isOlas: bool, e: Epoch, checkpoint: nat, ids: seq<ServiceId>, rewards: seq<nat>)
      returns (ok: bool)
      modifies this
      ensures ok == Step(old(View()), Checkpoint(c, isOlas, e, checkpoint, ids, rewards)).Done?
      ensures ok ==> View() == Step(old(View()), Checkpoint(c, isOlas, e, checkpoint, ids, rewards)).state
      ensures ok && old(Valid()) ==> Valid()
    {
      StakingProofs.StepKeepsAny(View(), Checkpoint(c, isOlas, e, checkpoint, ids, rewards));
      if |ids| != |rewards| {
        return false;
      }
      var total: nat;
      ok, total := CreditListed(c, isOlas, e, checkpoint, ids, rewards);
      if !ok {
        return false;
      }
      if (c, e) in trackers {
        ghost var credited := View();
        var tracker := trackers[(c, e)];
        ok := LinkTracked(c, e, checkpoint, ids, tracker);
        if !ok {
          return false;
        }
        var next := JoinTrackers(if (c, e + 1) in trackers then trackers[(c, e + 1)] else [], tracker);
        trackers := trackers[(c, e + 1) := next];
        assert Done(View()) == AfterTracker(credited, c, e, checkpoint, ids);
      }
      if isOlas {
        global := global.(rewards := global.rewards + total);
      }
      return true;
    }

    /** The loop over the listed services and their rewards. */
    method CreditListed(c: Contract, isOlas: bool, e: Epoch, checkpoint: nat, ids: seq<ServiceId>, rewards: seq<nat>)
      returns (ok: bool, total: nat)
      requires |ids| == |rewards|
      modifies this
      ensures ok == AfterCredits(old(View()), c, isOlas, e, checkpoint, ids, rewards).Done?
      ensures ok ==> View() == AfterCredits(old(View()), c, isOlas, e, checkpoint, ids, rewards).state && total == Total(rewards)
    {
      ghost var s := View();
      total := 0;
      for i := 0 to |ids|
        invariant AfterCredits(s, c, isOlas, e, checkpoint, ids[..i], rewards[..i]) == Done(View())
        invariant total == Total(rewards[..i])
      {
        assert ids[..i + 1][..i] == ids[..i] && rewards[..i + 1][..i] == rewards[..i];
        total := total + rewards[i];
        ok := Credit(c, isOlas, e, checkpoint, ids[i], rewards[i]);
        if !ok {
          CreditsThrow(s, c, isOlas, e, checkpoint, ids, rewards, i + 1);
          return;
        }
      }
      ok := true;
      assert ids[..|ids|] == ids && rewards[..|ids|] == rewards;
    }

    /** One listed service and its reward. */
    method Credit(c: Contract, isOlas: bool, e: Epoch, checkpoint: nat, id: ServiceId, reward: nat) returns (ok: bool)
      modifies this
      ensures ok == AfterCredit(old(View()), c, isOlas, e, checkpoint, id, reward).Done?
      ensures ok ==> View() == AfterCredit(old(View()), c, isOlas, e, checkpoint, id, reward).state
    {
      if id in services && isOlas {
        services := services[id := services[id].(earned := services[id].earned + reward)];
      }
      ok := GetOrCreateServiceRewardsHistory((id, c, e));
      if ok {
        histories := histories[(id, c, e) := History(reward, Some(checkpoint))];
      }
    }

    /** The loop over the services tracked in the epoch. */
    method LinkTracked(c: Contract, e: Epoch, checkpoint: nat, listed: seq<ServiceId>, tracker: seq<ServiceId>) returns (ok: bool)
      modifies this
      ensures ok == AfterAllTracked(old(View()), c, e, checkpoint, listed, tracker).Done?
      ensures ok ==> View() == AfterAllTracked(old(View()), c, e, checkpoint, listed, tracker).state
    {
      ghost var s := View();
      for i := 0 to |tracker|
        invariant AfterAllTracked(s, c, e, checkpoint, listed, tracker[..i]) == Done(View())
      {
        assert tracker[..i + 1][..i] == tracker[..i];
        var id := tracker[i];
        if id in listed {
          continue;
        }
        if id in services && services[id].latest.Some? && services[id].latest.value != c {
          continue;
        }
        ok := GetOrCreateServiceRewardsHistory((id, c, e));
        if !ok {
          AllTrackedThrow(s, c, e, checkpoint, listed, tracker, i + 1);
          return;
        }
        histories := histories[(id, c, e) := History(0, Some(checkpoint))];
      }
      ok := true;
      assert tracker[..|tracker|] == tracker;
    }

    method HandleRewardClaimed(isOlas: bool, id: ServiceId, reward: nat) returns (ok: bool)
      modifies this
      ensures ok == Step(old(View()), RewardClaimed(isOlas, id, reward)).Done?
      ensures ok ==> View() == Step(old(View()), RewardClaimed(isOlas, id, reward)).state
      ensures ok && old(Valid()) ==> Valid()
    {
      StakingProofs.StepKeepsAny(View(), RewardClaimed(isOlas, id, reward));
      if !isOlas {
        return true;
      }
      if id !in services {
        return false;
      }
      services := services[id := services[id].(claimed := services[id].claimed + reward)];
      global := global.(claimed := global.claimed + reward);
      return true;
    }

    method HandleServiceUnstaked(c: Contract, isOlas: bool, forced: bool, id: ServiceId, e: Epoch, reward: nat) returns (ok: bool)
      modifies this
      ensures ok == Step(old(View()), Unstaked(c, isOlas, forced, id, e, reward)).Done?
      ensures ok ==> View() == Step(old(View()), Unstaked(c, isOlas, forced, id, e, reward)).state
      ensures ok && old(Valid()) ==> Valid()
    {
      StakingProofs.StepKeepsAny(View(), Unstaked(c, isOlas, forced, id, e, reward));
      if isOlas && id !in services {
        return false;
      }
      ok := Unstake(c, !forced && isOlas, id, e, reward);
    }

    /** The service, the history row and Global of an unstake. */
    method Unstake(c: Contract, paid: bool, id: ServiceId, e: Epoch, reward: nat) returns (ok: bool)
      modifies this
      ensures ok == AfterUnstake(old(View()), c, paid, id, e, reward).Done?
      ensures ok ==> View() == AfterUnstake(old(View()), c, paid, id, e, reward).state
    {
      var amount := if id in services then services[id].stakeAmount else 0;
      if id in services {
        var service := services[id].(latest := None);
        if paid {
          service := service.(claimed := service.claimed + reward);
        }
        services := services[id := service.(staked := service.staked - amount, stakeAmount := 0)];
      }
      ok := GetOrCreateServiceRewardsHistory((id, c, e));
      if !ok {
        return false;
      }
      histories := histories[(id, c, e) := histories[(id, c, e)].(reward := reward)];
      global := global.(cumulativeUnstaked := global.cumulativeUnstaked + amount, currentStaked := global.currentStaked - amount);
      if paid {
        global := global.(claimed := global.claimed + reward);
      }
    }
  }

  /** A list as a set in insertion order, and the second list added to it. */
  method JoinTrackers(a: seq<ServiceId>, b: seq<ServiceId>) returns (u: seq<ServiceId>)
    ensures u == Union(a, b)
  {
    u := [];
    for i := 0 to |a|
      invariant u == Deduplicated(a[..i])
    {
      assert a[..i + 1][..i] == a[..i];
      if a[i] !in u {
        u := u + [a[i]];
      }
    }
    assert a[..|a|] == a;
    for i := 0 to |b|
      invariant u == Union(a, b[..i])
    {
      assert b[..i + 1][..i] == b[..i];
      if b[i] !in u {
        u := u + [b[i]];
      }
    }
    assert b[..|b|] == b;
  }

  lemma {:induction false} CreditsThrow(s: State, c: Contract, isOlas: bool, e: Epoch, checkpoint: nat,
                                        ids: seq<ServiceId>, rewards: seq<nat>, i: nat)
    requires |ids| == |rewards| && i <= |ids| && AfterCredits(s, c, isOlas, e, checkpoint, ids[..i], rewards[..i]).Thrown?
    ensures AfterCredits(s, c, isOlas, e, checkpoint, ids, rewards).Thrown?
    decreases |ids|
  {
    if i == |ids| {
      assert ids[..i] == ids && rewards[..i] == rewards;
    } else {
      var n := |ids| - 1;
      assert ids[..n][..i] == ids[..i] && rewards[..n][..i] == rewards[..i];
      CreditsThrow(s, c, isOlas, e, checkpoint, ids[..n], rewards[..n], i);
    }
  }

  lemma {:induction false} AllTrackedThrow(s: State, c: Contract, e: Epoch, checkpoint: nat, listed: seq<ServiceId>,
                                           tracker: seq<ServiceId>, i: nat)
    requires i <= |tracker| && AfterAllTracked(s, c, e, checkpoint, listed, tracker[..i]).Thrown?
    ensures AfterAllTracked(s, c, e, checkpoint, listed, tracker).Thrown?
    decreases |tracker|
  {
    if i == |tracker| {
      assert tracker[..i] == tracker;
    } else {
      var init := tracker[..|tracker| - 1];
      assert init[..i] == tracker[..i];
      AllTrackedThrow(s, c, e, checkpoint, listed, init, i);
    }
  }
}
