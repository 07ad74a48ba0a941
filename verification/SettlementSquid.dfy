/** The handlers as the squid runs them, row by row over its tables. */
module SettlementSquid {
  import opened SettlementBooks
  import opened Settlement
  import SettlementProofs

  class Squid {
    var services: set<nat>
    var agents: map<Agent, TraderAgent>
    var participants: map<(Agent, Condition), Participant>
    var daily: map<(Agent, Day), Daily>
    var bets: map<nat, Bet>
    var questions: set<Condition>
    var resolutions: set<Condition>
    var markets: set<Condition>
    var global: Global

    /** The books balance, the rows follow from the bets, and Global counts the tables. */
    ghost predicate Valid()
      reads this
    {
      SettlementProofs.Valid(View()) && SettlementProofs.CountsValid(View())
    }

    constructor ()
      ensures View() == INITIAL
    {
      services, agents, participants, daily, bets := {}, map[], map[], map[], map[];
      questions, resolutions, markets, global := {}, {}, {}, Global(ZERO, 0, 0, 0, 0);
    }

    function View(): (s: State)
      reads this
    {
      State(services, agents, participants, daily, bets, questions, resolutions, markets, global)
    }

    method HandleRegisterInstance(service: nat, agentId: nat)
      modifies this
      ensures View() == Step(old(View()), RegisterInstance(service, agentId))
      ensures old(Valid() && Possible(View(), RegisterInstance(service, agentId))) ==> Valid()
    {
      SettlementProofs.StepKeepsAll(View(), RegisterInstance(service, agentId));
      if agentId == PREDICT_AGENT_ID {
        services := services + {service};
      }
    }

    method HandleCreateMultisigWithAgents(service: nat, multisig: Agent)
      modifies this
      ensures View() == Step(old(View()), CreateMultisig(service, multisig))
      ensures old(Valid() && Possible(View(), CreateMultisig(service, multisig))) ==> Valid()
    {
      SettlementProofs.StepKeepsAll(View(), CreateMultisig(service, multisig));
      if service !in services {
        return;
      }
      if multisig !in agents {
        agents := agents[multisig := TraderAgent(ZERO, 0, false)];
        global := global.(agents := global.agents + 1);
      }
    }

    /** Any of the handlers that create the question of a condition. */
    method SetQuestion(c: Condition)
      modifies this
      ensures View() == Step(old(View()), AddQuestion(c))
      ensures old(Valid() && Possible(View(), AddQuestion(c))) ==> Valid()
    {
      SettlementProofs.StepKeepsAll(View(), AddQuestion(c));
      questions := questions + {c};
    }

    method GetDailyProfitStatistic(a: Agent, time: nat) returns (d: Daily)
      ensures d == DailyOf(View(), a, time)
    {
      var day := time / ONE_DAY * ONE_DAY;
      d := if (a, day) in daily then daily[(a, day)] else Daily(0, 0, 0, 0, 0, {});
    }

    /** recordBet, for a fill whose maker was resolved to an agent. */
    method RecordBet(id: nat, a: Agent, c: Condition, outcome: nat, isBuying: bool, maker: nat, taker: nat, fee: nat, time: nat)
      requires a in agents
      modifies this
      ensures View() == Step(old(View()), Fill(id, a, c, outcome, isBuying, maker, taker, fee, time))
      ensures old(Valid() && Possible(View(), Fill(id, a, c, outcome, isBuying, maker, taker, fee, time))) ==> Valid()
    {
      SettlementProofs.StepKeepsAll(View(), Fill(id, a, c, outcome, isBuying, maker, taker, fee, time));
      var sellFee := if fee < taker then fee else taker;
      var amount := if isBuying then maker + fee else sellFee - taker;
      var shares := SharesOf(isBuying, maker, taker);
      WriteBet(id, a, c, outcome, amount, shares, time);
      ProcessTradeActivity(a, c, amount, outcome, shares);
    }

    /** The day's row and the bet's. */
    method WriteBet(id: nat, a: Agent, c: Condition, outcome: nat, amount: int, shares: int, time: nat)
      modifies this
      ensures View() == WithBet(old(View()), id, a, c, outcome, amount, shares, time)
    {
      var d := GetDailyProfitStatistic(a, time);
      daily := daily[(a, DayOf(time)) := d.(bets := d.bets + 1, traded := d.traded + amount)];
      bets := bets[id := Bet(a, c, outcome, amount, shares, false)];
    }

    method ProcessTradeActivity(a: Agent, c: Condition, amount: int, outcome: nat, shares: int)
      requires a in agents
      modifies this
      ensures View() == AfterTrade(old(View()), a, c, outcome, amount, shares)
    {
      var agent := agents[a];
      global := global.(bets := global.bets + 1, amounts := global.amounts.Plus(Traded(amount)));
      if !agent.active {
        agent := agent.(active := true);
        global := global.(active := global.active + 1);
      }
      agent := agent.(bets := agent.bets + 1, amounts := agent.amounts.Plus(Traded(amount)));
      var p: Participant;
      if (a, c) in participants {
        p := participants[(a, c)];
      } else {
        p := Participant(c in questions, ZERO, 0, 0, 0, false);
        if c !in markets {
          markets := markets + {c};
          global := global.(markets := global.markets + 1);
        }
      }
      p := p.(bets := p.bets + 1, amounts := p.amounts.Plus(Traded(amount)));
      if outcome == 0 {
        p := p.(shares0 := p.shares0 + shares);
      } else {
        p := p.(shares1 := p.shares1 + shares);
      }
      agents := agents[a := agent];
      participants := participants[(a, c) := p];
    }

    method ProcessRedemption(a: Agent, c: Condition, amount: nat, time: nat)
      modifies this
      ensures View() == Step(old(View()), Redeem(a, c, amount, time))
      ensures old(Valid() && Possible(View(), Redeem(a, c, amount, time))) ==> Valid()
    {
      SettlementProofs.StepKeepsAll(View(), Redeem(a, c, amount, time));
      if a !in agents || c !in questions || (a, c) !in participants {
        return;
      }
      var agent, p := agents[a], participants[(a, c)];
      agents := agents[a := agent.(amounts := agent.amounts.Plus(PaidOut(amount)))];
      participants := participants[(a, c) := p.(amounts := p.amounts.Plus(PaidOut(amount)))];
      global := global.(amounts := global.amounts.Plus(PaidOut(amount)));
      var d := GetDailyProfitStatistic(a, time);
      daily := daily[(a, DayOf(time)) := d.(payout := d.payout + amount)];
    }

    /** The participants linked to a question, in the map's own order. */
    method ParticipantsByQuestion(c: Condition) returns (listed: seq<Agent>)
      ensures IsListing(View(), c, listed)
    {
      listed := [];
      var todo := set k | k in participants && k.1 == c && participants[k].linked;
      while todo != {}
        invariant forall k | k in todo :: k in participants && k.1 == c && participants[k].linked
        invariant forall a :: (a, c) in participants && participants[(a, c)].linked <==> a in listed || (a, c) in todo
        invariant forall a | a in listed :: (a, c) !in todo
        invariant forall i, j | 0 <= i < j < |listed| :: listed[i] != listed[j]
      {
        var k :| k in todo;
        listed := listed + [k.0];
        todo := todo - {k};
      }
    }

    /** A resolution of a tracked question not resolved yet settles all its participants. */
    method ProcessMarketResolution(c: Condition, winning: int, payouts: seq<nat>, time: nat) returns (listed: seq<Agent>)
      modifies this
      ensures IsListing(old(View()), c, listed)
      ensures View() == Step(old(View()), Resolve(c, winning, payouts, time, listed))
      ensures old(Valid()) ==> Valid()
    {
      listed := ParticipantsByQuestion(c);
      SettlementProofs.StepKeepsAll(View(), Resolve(c, winning, payouts, time, listed));
      if c !in questions || c in resolutions {
        return;
      }
      resolutions := resolutions + {c};
      SettleAll(c, winning, payouts, time, listed);
    }

    /** The loop over the participants, and Global at its end. */
    method SettleAll(c: Condition, winning: int, payouts: seq<nat>, time: nat, listed: seq<Agent>)
      modifies this
      ensures View() == AfterSettlingAll(old(View()), listed, c, winning, payouts, time)
    {
      ghost var s := View();
      var settled, expected := 0, 0;
      for n := 0 to |listed|
        invariant View() == AfterSettlingAll(s, listed[..n], c, winning, payouts, time).(global := s.global)
        invariant AfterSettlingAll(s, listed[..n], c, winning, payouts, time).global
                  == s.global.(amounts := s.global.amounts.Plus(Amounts(0, settled, expected, 0)))
      {
        var a := listed[n];
        assert listed[..n + 1][..n] == listed[..n];
        if a in agents && (a, c) in participants && !participants[(a, c)].settled {
          var d := SettleOne(a, c, winning, payouts, time);
          settled, expected := settled + d.settled, expected + d.expected;
        }
      }
      assert listed[..|listed|] == listed;
      if settled != 0 || expected != 0 {
        global := global.(amounts := global.amounts.Plus(Amounts(0, settled, expected, 0)));
      }
    }

    /** One pass of the loop over the participants; its amounts are left to be added to Global. */
    method SettleOne(a: Agent, c: Condition, winning: int, payouts: seq<nat>, time: nat) returns (d: Amounts)
      requires Settles(View(), a, c)
      modifies this
      ensures d == old(Settling(participants[(a, c)], winning, payouts))
      ensures View() == AfterSettling(old(View()), a, c, winning, payouts, time)
    {
      var p, agent := participants[(a, c)], agents[a];
      d := Settling(p, winning, payouts);
      participants := participants[(a, c) := SettledRow(p, winning, payouts)];
      agents := agents[a := agent.(amounts := agent.amounts.Plus(d))];
      var daily := GetDailyProfitStatistic(a, time);
      this.daily := this.daily[(a, DayOf(time)) := daily.(profit := daily.profit + (d.expected - d.settled),
                                                          settled := daily.settled + d.settled, markets := daily.markets + {c})];
      bets := Counted(bets, a, c);
    }
  }
}
