/** What every run of trades, resolutions and redemptions keeps. */
module SettlementProofs {
  import Powers
  import opened Sums
  import opened SettlementBooks
  import opened Settlement

  // --- The books of a state ---------------------------------------------------------------------

  /** A day's row as a book entry: its profit is expected payout less settled amount. */
  function DailyAmounts(d: Daily): (a: Amounts)
  {
    Amounts(d.traded, d.settled, d.profit + d.settled, d.payout)
  }

  function ParticipantBook(m: map<(Agent, Condition), Participant>): (b: map<(Agent, Condition), Amounts>)
  {
    map k | k in m :: m[k].amounts
  }

  function AgentBook(m: map<Agent, TraderAgent>): (b: map<Agent, Amounts>)
  {
    map a | a in m :: m[a].amounts
  }

  function DailyBook(m: map<(Agent, Day), Daily>): (b: map<(Agent, Day), Amounts>)
  {
    map k | k in m :: DailyAmounts(m[k])
  }

  function BooksOf(s: State): (b: Books)
  {
    Books(ParticipantBook(s.participants), AgentBook(s.agents), DailyBook(s.daily), s.global.amounts)
  }

  lemma ParticipantBookUpdate(m: map<(Agent, Condition), Participant>, k: (Agent, Condition), p: Participant)
    ensures ParticipantBook(m[k := p]) == ParticipantBook(m)[k := p.amounts]
  {
  }

  lemma AgentBookUpdate(m: map<Agent, TraderAgent>, a: Agent, r: TraderAgent)
    ensures AgentBook(m[a := r]) == AgentBook(m)[a := r.amounts]
  {
  }

  lemma DailyBookUpdate(m: map<(Agent, Day), Daily>, k: (Agent, Day), d: Daily)
    ensures DailyBook(m[k := d]) == DailyBook(m)[k := DailyAmounts(d)]
  {
  }

  // --- The invariant ----------------------------------------------------------------------------

  ghost predicate ParticipantValid(s: State, a: Agent, c: Condition)
    requires (a, c) in s.participants
  {
    var p := s.participants[(a, c)];
    && a in s.agents && (p.linked ==> c in s.questions)
    && (p.settled ==> p.linked && c in s.resolutions)
    && (!p.settled ==> p.amounts.settled == 0 && p.amounts.expected == 0)
    && p.amounts.traded == Sum(BetAmounts(s.bets, a, c, false))
    && p.amounts.settled == Sum(BetAmounts(s.bets, a, c, true))
    && p.shares0 == Sum(BetShares(s.bets, a, c, true)) && p.shares1 == Sum(BetShares(s.bets, a, c, false))
  }

  /** The shares of a participant's bets on the first outcome, or on the others. */
  function BetShares(bets: map<nat, Bet>, a: Agent, c: Condition, first: bool): (m: map<nat, int>)
  {
    map i | i in bets && bets[i].agent == a && bets[i].condition == c && (bets[i].outcome == 0) == first :: bets[i].shares
  }

  /** The amounts of a participant's bets, all of them or those counted in profit. */
  function BetAmounts(bets: map<nat, Bet>, a: Agent, c: Condition, counted: bool): (m: map<nat, int>)
  {
    map i | i in bets && bets[i].agent == a && bets[i].condition == c && (counted ==> bets[i].counted) :: bets[i].amount
  }

  ghost predicate RowsValid(s: State)
  {
    && (forall a, c | (a, c) in s.participants :: ParticipantValid(s, a, c))
    && (forall i | i in s.bets :: (s.bets[i].agent, s.bets[i].condition) in s.participants)
  }

  ghost predicate Valid(s: State)
  {
    Balanced(BooksOf(s)) && RowsValid(s)
  }

  // --- Trades -----------------------------------------------------------------------------------

  lemma BetPosts(s: State, id: nat, a: Agent, c: Condition, outcome: nat, amount: int, shares: int, time: nat)
    requires a in s.agents
    ensures BooksOf(AfterBet(s, id, a, c, outcome, amount, shares, time))
            == Post(BooksOf(s), a, c, DayOf(time), Traded(amount))
  {
    var n := AfterBet(s, id, a, c, outcome, amount, shares, time);
    ParticipantBookUpdate(s.participants, (a, c), n.participants[(a, c)]);
    AgentBookUpdate(s.agents, a, n.agents[a]);
    DailyBookUpdate(s.daily, (a, DayOf(time)), n.daily[(a, DayOf(time))]);
  }

  lemma BetAddsBet(bets: map<nat, Bet>, id: nat, a: Agent, c: Condition, outcome: nat, amount: int, shares: int,
                   o: Agent, oc: Condition)
    requires id !in bets
    ensures var n := bets[id := Bet(a, c, outcome, amount, shares, false)];
            && BetAmounts(n, o, oc, true) == BetAmounts(bets, o, oc, true)
            && Sum(BetAmounts(n, o, oc, false)) == Sum(BetAmounts(bets, o, oc, false)) + (if (o, oc) == (a, c) then amount else 0)
  {
    var n := bets[id := Bet(a, c, outcome, amount, shares, false)];
    assert BetAmounts(n, o, oc, true) == BetAmounts(bets, o, oc, true);
    if (o, oc) == (a, c) {
      assert BetAmounts(n, o, oc, false) == BetAmounts(bets, o, oc, false)[id := amount];
      SumUpdate(BetAmounts(bets, o, oc, false), id, amount);
    } else {
      assert BetAmounts(n, o, oc, false) == BetAmounts(bets, o, oc, false);
    }
  }

  lemma BetAddsShares(bets: map<nat, Bet>, id: nat, a: Agent, c: Condition, outcome: nat, amount: int, shares: int,
                      o: Agent, oc: Condition, first: bool)
    requires id !in bets
    ensures Sum(BetShares(bets[id := Bet(a, c, outcome, amount, shares, false)], o, oc, first))
            == Sum(BetShares(bets, o, oc, first)) + (if (o, oc) == (a, c) && (outcome == 0) == first then shares else 0)
  {
    var n := bets[id := Bet(a, c, outcome, amount, shares, false)];
    if (o, oc) == (a, c) && (outcome == 0) == first {
      assert BetShares(n, o, oc, first) == BetShares(bets, o, oc, first)[id := shares];
      SumUpdate(BetShares(bets, o, oc, first), id, shares);
    } else {
      assert BetShares(n, o, oc, first) == BetShares(bets, o, oc, first);
    }
  }

  lemma NoBetsNoAmounts(s: State, a: Agent, c: Condition)
    requires RowsValid(s) && (a, c) !in s.participants
    ensures forall counted :: BetAmounts(s.bets, a, c, counted) == map[]
    ensures forall first :: BetShares(s.bets, a, c, first) == map[]
  {
  }

  lemma BetKeepsParticipant(s: State, id: nat, a: Agent, c: Condition, outcome: nat, amount: int, shares: int, time: nat,
                            o: Agent, oc: Condition)
    requires RowsValid(s) && a in s.agents && id !in s.bets
    requires (o, oc) in AfterBet(s, id, a, c, outcome, amount, shares, time).participants
    ensures ParticipantValid(AfterBet(s, id, a, c, outcome, amount, shares, time), o, oc)
  {
    BetAddsBet(s.bets, id, a, c, outcome, amount, shares, o, oc);
    BetAddsShares(s.bets, id, a, c, outcome, amount, shares, o, oc, true);
    BetAddsShares(s.bets, id, a, c, outcome, amount, shares, o, oc, false);
    if (o, oc) in s.participants {
      assert ParticipantValid(s, o, oc);
    } else {
      NoBetsNoAmounts(s, o, oc);
    }
  }

  lemma BetKeepsValid(s: State, id: nat, a: Agent, c: Condition, outcome: nat, amount: int, shares: int, time: nat)
    requires Valid(s) && a in s.agents && id !in s.bets
    ensures Valid(AfterBet(s, id, a, c, outcome, amount, shares, time))
  {
    BetPosts(s, id, a, c, outcome, amount, shares, time);
    PostBalances(BooksOf(s), a, c, DayOf(time), Traded(amount));
    var n := AfterBet(s, id, a, c, outcome, amount, shares, time);
    forall o, oc | (o, oc) in n.participants
      ensures ParticipantValid(n, o, oc)
    {
      BetKeepsParticipant(s, id, a, c, outcome, amount, shares, time, o, oc);
    }
  }

  // --- Resolutions ------------------------------------------------------------------------------

  lemma SettlingPosts(s: State, a: Agent, c: Condition, winning: int, payouts: seq<nat>, time: nat)
    requires Settles(s, a, c) && s.participants[(a, c)].amounts.expected == 0
    ensures var d := Settling(s.participants[(a, c)], winning, payouts);
            BooksOf(AfterSettlingOne(s, a, c, winning, payouts, time)) == Post(BooksOf(s), a, c, DayOf(time), d)
  {
    var n := AfterSettlingOne(s, a, c, winning, payouts, time);
    ParticipantBookUpdate(s.participants, (a, c), n.participants[(a, c)]);
    AgentBookUpdate(s.agents, a, n.agents[a]);
    DailyBookUpdate(s.daily, (a, DayOf(time)), n.daily[(a, DayOf(time))]);
  }

  lemma CountedAmounts(bets: map<nat, Bet>, a: Agent, c: Condition, o: Agent, oc: Condition)
    ensures BetAmounts(Counted(bets, a, c), o, oc, false) == BetAmounts(bets, o, oc, false)
    ensures BetAmounts(Counted(bets, a, c), o, oc, true) == BetAmounts(bets, o, oc, (o, oc) != (a, c))
  {
  }

  lemma CountedShares(bets: map<nat, Bet>, a: Agent, c: Condition, o: Agent, oc: Condition, first: bool)
    ensures BetShares(Counted(bets, a, c), o, oc, first) == BetShares(bets, o, oc, first)
  {
  }

  lemma SettlingKeepsParticipant(s: State, a: Agent, c: Condition, winning: int, payouts: seq<nat>, time: nat, o: Agent, oc: Condition)
    requires RowsValid(s) && Settles(s, a, c) && s.participants[(a, c)].linked && c in s.resolutions
    requires (o, oc) in s.participants
    ensures ParticipantValid(AfterSettlingOne(s, a, c, winning, payouts, time), o, oc)
  {
    assert ParticipantValid(s, o, oc);
    CountedAmounts(s.bets, a, c, o, oc);
    CountedShares(s.bets, a, c, o, oc, true);
    CountedShares(s.bets, a, c, o, oc, false);
  }

  /** The listed participants of a market exist and are linked to it. */
  ghost predicate Listed(s: State, c: Condition, listed: seq<Agent>)
  {
    c in s.resolutions && forall a | a in listed :: (a, c) in s.participants && s.participants[(a, c)].linked
  }

  lemma SettlingKeepsRows(s: State, a: Agent, c: Condition, winning: int, payouts: seq<nat>, time: nat)
    requires RowsValid(s) && Settles(s, a, c) && Listed(s, c, [a])
    ensures RowsValid(AfterSettlingOne(s, a, c, winning, payouts, time))
  {
    assert a in [a];
    var n := AfterSettlingOne(s, a, c, winning, payouts, time);
    forall o, oc | (o, oc) in n.participants
      ensures ParticipantValid(n, o, oc)
    {
      SettlingKeepsParticipant(s, a, c, winning, payouts, time, o, oc);
    }
  }

  lemma SettlingKeepsValid(s: State, a: Agent, c: Condition, winning: int, payouts: seq<nat>, time: nat)
    requires Valid(s) && Listed(s, c, [a])
    ensures Valid(AfterSettlingOne(s, a, c, winning, payouts, time))
  {
    if Settles(s, a, c) {
      assert ParticipantValid(s, a, c);
      var d := Settling(s.participants[(a, c)], winning, payouts);
      SettlingPosts(s, a, c, winning, payouts, time);
      PostBalances(BooksOf(s), a, c, DayOf(time), d);
      SettlingKeepsRows(s, a, c, winning, payouts, time);
    }
  }

  lemma SettlingKeepsListed(s: State, a: Agent, c: Condition, winning: int, payouts: seq<nat>, time: nat, listed: seq<Agent>)
    requires Listed(s, c, listed)
    ensures Listed(AfterSettlingOne(s, a, c, winning, payouts, time), c, listed)
  {
  }

  lemma {:induction false} SettlingAllKeepsValid(s: State, done: seq<Agent>, listed: seq<Agent>, c: Condition, winning: int,
                                                 payouts: seq<nat>, time: nat)
    requires Valid(s) && Listed(s, c, listed) && done <= listed
    ensures Valid(AfterSettlingAll(s, done, c, winning, payouts, time))
    ensures Listed(AfterSettlingAll(s, done, c, winning, payouts, time), c, listed)
  {
    if done != [] {
      var init, a := done[..|done| - 1], done[|done| - 1];
      SettlingAllKeepsValid(s, init, listed, c, winning, payouts, time);
      var m := AfterSettlingAll(s, init, c, winning, payouts, time);
      assert a == listed[|done| - 1];
      SettlingKeepsValid(m, a, c, winning, payouts, time);
      SettlingKeepsListed(m, a, c, winning, payouts, time, listed);
    }
  }

  lemma ResolutionKeepsValid(s: State, c: Condition, winning: int, payouts: seq<nat>, time: nat, listed: seq<Agent>)
    requires Valid(s) && IsListing(s, c, listed)
    ensures Valid(AfterResolution(s, c, winning, payouts, time, listed))
  {
    var m := s.(resolutions := s.resolutions + {c});
    assert BooksOf(m) == BooksOf(s);
    forall o, oc | (o, oc) in m.participants
      ensures ParticipantValid(m, o, oc)
    {
      assert ParticipantValid(s, o, oc);
    }
    SettlingAllKeepsValid(m, listed, listed, c, winning, payouts, time);
  }

  /**
   What a resolution does to every participant, whatever order the store lists them in: those of the
   market not settled before are settled on their shares and all others are left as they are.
   */
  lemma {:induction false} SettlingAllSettles(s: State, listed: seq<Agent>, c: Condition, winning: int, payouts: seq<nat>, time: nat)
    requires forall i, j | 0 <= i < j < |listed| :: listed[i] != listed[j]
    requires forall a | a in listed :: (a, c) in s.participants && a in s.agents
    ensures var n := AfterSettlingAll(s, listed, c, winning, payouts, time);
            && n.agents.Keys == s.agents.Keys && n.participants.Keys == s.participants.Keys
            && forall k | k in s.participants :: n.participants[k] ==
                 if k.1 == c && k.0 in listed && !s.participants[k].settled then SettledRow(s.participants[k], winning, payouts)
                 else s.participants[k]
  {
    if listed != [] {
      var init, a := listed[..|listed| - 1], listed[|listed| - 1];
      assert listed == init + [a];
      SettlingAllSettles(s, init, c, winning, payouts, time);
    }
  }

  /** However a market resolves, a participant is expected no more than one unit per share it holds. */
  lemma PayoutIsBacked(p: Participant, winning: int, payouts: seq<nat>)
    ensures ExpectedPayout(p, winning, payouts) <= (if p.shares0 > 0 then p.shares0 else 0) + (if p.shares1 > 0 then p.shares1 else 0)
  {
    PartIsBacked(p.shares0, payouts, 0);
    PartIsBacked(p.shares1, payouts, 1);
  }

  lemma PartIsBacked(shares: int, payouts: seq<nat>, i: nat)
    ensures Part(shares, At(payouts, i), SumOf(payouts)) <= if shares > 0 then shares else 0
  {
    PayoutWithinTotal(payouts, i);
    if shares > 0 && SumOf(payouts) > 0 {
      ShareOfPart(shares, At(payouts, i), SumOf(payouts));
    }
  }

  lemma ShareOfPart(shares: nat, x: nat, t: nat)
    requires x <= t && t > 0
    ensures shares * x / t <= shares
  {
    var q := shares * x / t;
    Powers.DivBounds(shares * x, t);
    Powers.MulMono(x, t, shares);
    assert q * t < (shares + 1) * t by {
      Powers.MulStrict(shares, shares + 1, t);
    }
    Powers.MulCancelLt(q, shares + 1, t);
  }

  lemma {:induction false} PayoutWithinTotal(payouts: seq<nat>, i: nat)
    ensures At(payouts, i) <= SumOf(payouts)
  {
    if i < |payouts| - 1 {
      PayoutWithinTotal(payouts[..|payouts| - 1], i);
    }
  }

  // --- Redemptions and agents -------------------------------------------------------------------

  lemma RedemptionPosts(s: State, a: Agent, c: Condition, amount: nat, time: nat)
    requires a in s.agents && c in s.questions && (a, c) in s.participants
    ensures BooksOf(AfterRedemption(s, a, c, amount, time)) == Post(BooksOf(s), a, c, DayOf(time), PaidOut(amount))
  {
    var n := AfterRedemption(s, a, c, amount, time);
    ParticipantBookUpdate(s.participants, (a, c), n.participants[(a, c)]);
    AgentBookUpdate(s.agents, a, n.agents[a]);
    DailyBookUpdate(s.daily, (a, DayOf(time)), n.daily[(a, DayOf(time))]);
  }

  /** A change to amounts paid out, to agents or to questions leaves every participant as valid as it was. */
  ghost predicate RowsKept(s: State, n: State)
  {
    && s.agents.Keys <= n.agents.Keys && s.questions <= n.questions && s.resolutions <= n.resolutions && n.bets == s.bets
    && n.participants.Keys == s.participants.Keys
    && forall k | k in s.participants :: n.participants[k].linked == s.participants[k].linked
         && n.participants[k].settled == s.participants[k].settled
         && n.participants[k].shares0 == s.participants[k].shares0 && n.participants[k].shares1 == s.participants[k].shares1
         && n.participants[k].amounts == s.participants[k].amounts.(payout := n.participants[k].amounts.payout)
  }

  lemma RowsKeptValid(s: State, n: State)
    requires RowsValid(s) && RowsKept(s, n)
    ensures RowsValid(n)
  {
    forall o, oc | (o, oc) in n.participants
      ensures ParticipantValid(n, o, oc)
    {
      assert ParticipantValid(s, o, oc);
    }
  }

  lemma RedemptionKeepsRows(s: State, a: Agent, c: Condition, amount: nat, time: nat)
    ensures RowsKept(s, AfterRedemption(s, a, c, amount, time))
  {
  }

  lemma RedemptionKeepsValid(s: State, a: Agent, c: Condition, amount: nat, time: nat)
    requires Valid(s)
    ensures Valid(AfterRedemption(s, a, c, amount, time))
  {
    if a in s.agents && c in s.questions && (a, c) in s.participants {
      RedemptionPosts(s, a, c, amount, time);
      PostBalances(BooksOf(s), a, c, DayOf(time), PaidOut(amount));
    }
    RedemptionKeepsRows(s, a, c, amount, time);
    RowsKeptValid(s, AfterRedemption(s, a, c, amount, time));
  }

  lemma MultisigKeepsValid(s: State, service: nat, multisig: Agent)
    requires Valid(s)
    ensures Valid(AfterMultisig(s, service, multisig))
  {
    if service in s.services && multisig !in s.agents {
      OpenBalances(BooksOf(s), multisig);
      AgentBookUpdate(s.agents, multisig, TraderAgent(ZERO, 0, false));
    }
    RowsKeptValid(s, AfterMultisig(s, service, multisig));
  }

  // --- Runs -------------------------------------------------------------------------------------

  lemma NewNameKeepsValid(s: State, services: set<nat>, questions: set<Condition>)
    requires Valid(s) && s.questions <= questions
    ensures Valid(s.(services := services, questions := questions))
  {
    RowsKeptValid(s, s.(services := services, questions := questions));
  }

  lemma StepKeepsValid(s: State, e: Event)
    requires Valid(s) && Possible(s, e)
    ensures Valid(Step(s, e))
  {
    match e
    case RegisterInstance(service, _) => NewNameKeepsValid(s, s.services + {service}, s.questions);
    case CreateMultisig(service, multisig) => MultisigKeepsValid(s, service, multisig);
    case AddQuestion(c) => NewNameKeepsValid(s, s.services, s.questions + {c});
    case Fill(id, a, c, outcome, isBuying, maker, taker, fee, time) =>
      if a in s.agents {
        BetKeepsValid(s, id, a, c, outcome, BetAmount(isBuying, maker, taker, fee), SharesOf(isBuying, maker, taker), time);
      }
    case Resolve(c, winning, payouts, time, listed) => ResolutionKeepsValid(s, c, winning, payouts, time, listed);
    case Redeem(a, c, amount, time) => RedemptionKeepsValid(s, a, c, amount, time);
  }

  /**
   After any run every book balances: Global's amounts are the totals over agents, over participants and
   over days, each agent's the totals over its own participants and days, and each participant's traded
   and settled amounts the sums of its bets and of its counted bets.
   */
  lemma {:induction false} RunIsValid(events: seq<Event>)
    requires PossibleRun(INITIAL, events)
    ensures Valid(Run(INITIAL, events))
  {
    if events == [] {
      EmptyBalances();
      assert BooksOf(INITIAL) == Books(map[], map[], map[], ZERO);
    } else {
      var init := events[..|events| - 1];
      forall i | 0 <= i < |init|
        ensures Possible(Run(INITIAL, init[..i]), init[i])
      {
        assert init[..i] == events[..i];
      }
      RunIsValid(init);
      StepKeepsValid(Run(INITIAL, init), events[|events| - 1]);
    }
  }

  /** The profits of all days add up to what is expected less what was settled. */
  lemma DailyProfit(s: State)
    requires Valid(s)
    ensures Sum(map k | k in s.daily :: s.daily[k].profit) == s.global.amounts.expected - s.global.amounts.settled
  {
    TotalProfit(DailyBook(s.daily), map k | k in s.daily :: s.daily[k].profit);
  }

  /** What of a participant a settlement fixes. */
  ghost predicate SettledAs(s: State, a: Agent, c: Condition, settled: int, expected: int)
  {
    && (a, c) in s.participants && s.participants[(a, c)].settled
    && s.participants[(a, c)].amounts.settled == settled && s.participants[(a, c)].amounts.expected == expected
  }

  lemma {:induction false} SettlingAllIsFinal(s: State, listed: seq<Agent>, c: Condition, winning: int, payouts: seq<nat>, time: nat,
                                              a: Agent, oc: Condition, settled: int, expected: int)
    requires SettledAs(s, a, oc, settled, expected)
    ensures SettledAs(AfterSettlingAll(s, listed, c, winning, payouts, time), a, oc, settled, expected)
  {
    if listed != [] {
      SettlingAllIsFinal(s, listed[..|listed| - 1], c, winning, payouts, time, a, oc, settled, expected);
    }
  }

  lemma StepIsFinal(s: State, e: Event, a: Agent, c: Condition, settled: int, expected: int)
    requires SettledAs(s, a, c, settled, expected)
    ensures SettledAs(Step(s, e), a, c, settled, expected)
  {
    if e.Resolve? {
      SettlingAllIsFinal(s.(resolutions := s.resolutions + {e.condition}), e.listed, e.condition, e.winning, e.payouts, e.time,
                         a, c, settled, expected);
    }
  }

  /** No participant is settled twice: what its settlement booked never changes again. */
  lemma {:induction false} SettlementIsFinal(s: State, events: seq<Event>, a: Agent, c: Condition, settled: int, expected: int)
    requires SettledAs(s, a, c, settled, expected)
    ensures SettledAs(Run(s, events), a, c, settled, expected)
  {
    if events != [] {
      SettlementIsFinal(s, events[..|events| - 1], a, c, settled, expected);
      StepIsFinal(Run(s, events[..|events| - 1]), events[|events| - 1], a, c, settled, expected);
    }
  }

  // --- Counters ---------------------------------------------------------------------------------

  function Active(agents: map<Agent, TraderAgent>): (a: set<Agent>)
  {
    set a | a in agents && agents[a].active
  }

  function Markets(keys: set<(Agent, Condition)>): (m: set<Condition>)
  {
    set k | k in keys :: k.1
  }

  lemma MarketsAdd(keys: set<(Agent, Condition)>, k: (Agent, Condition))
    ensures Markets(keys + {k}) == Markets(keys) + {k.1}
  {
  }

  /** Global counts the bets, agents, active agents and markets there are; a market is one with a participant. */
  ghost predicate CountsValid(s: State)
  {
    && s.global.bets == |s.bets| && s.global.agents == |s.agents| && s.global.active == |Active(s.agents)|
    && s.global.markets == |s.markets|
    && s.markets == Markets(s.participants.Keys)
  }

  /** Nothing is added that Global counts. */
  ghost predicate CountsKept(s: State, n: State)
  {
    && n.global == s.global.(amounts := n.global.amounts) && n.bets.Keys == s.bets.Keys && n.markets == s.markets
    && n.participants.Keys == s.participants.Keys && n.agents.Keys == s.agents.Keys
    && forall a | a in s.agents :: n.agents[a].active == s.agents[a].active
  }

  lemma CountsKeptValid(s: State, n: State)
    requires CountsValid(s) && CountsKept(s, n)
    ensures CountsValid(n)
  {
    assert Active(n.agents) == Active(s.agents);
    assert |n.bets| == |n.bets.Keys| && |n.agents| == |n.agents.Keys|;
    assert |s.bets| == |s.bets.Keys| && |s.agents| == |s.agents.Keys|;
  }

  lemma {:induction false} SettlingAllKeepsCounts(s: State, listed: seq<Agent>, c: Condition, winning: int, payouts: seq<nat>, time: nat)
    ensures CountsKept(s, AfterSettlingAll(s, listed, c, winning, payouts, time))
  {
    if listed != [] {
      SettlingAllKeepsCounts(s, listed[..|listed| - 1], c, winning, payouts, time);
    }
  }

  lemma SizeAdd<K, V>(m: map<K, V>, k: K, v: V)
    ensures |m[k := v]| == |m| + (if k in m then 0 else 1)
  {
    assert |m| == |m.Keys| && |m[k := v]| == |m[k := v].Keys|;
    assert m[k := v].Keys == m.Keys + {k};
  }

  lemma ActiveAdd(agents: map<Agent, TraderAgent>, a: Agent, r: TraderAgent)
    requires (a in agents && agents[a].active) ==> r.active
    ensures |Active(agents[a := r])| == |Active(agents)| + (if r.active && !(a in agents && agents[a].active) then 1 else 0)
  {
    assert Active(agents[a := r]) == Active(agents) + (if r.active then {a} else {});
  }

  lemma BetMarkets(participants: map<(Agent, Condition), Participant>, markets: set<Condition>, k: (Agent, Condition), p: Participant)
    requires markets == Markets(participants.Keys)
    ensures var added := k !in participants && k.1 !in markets;
            var n := if added then markets + {k.1} else markets;
            n == Markets(participants[k := p].Keys) && |n| == |markets| + (if added then 1 else 0)
  {
    MarketsAdd(participants.Keys, k);
    assert participants[k := p].Keys == participants.Keys + {k};
    assert k in participants ==> k.1 in markets;
    assert k.1 in markets ==> markets + {k.1} == markets;
  }

  lemma BetKeepsCounts(s: State, id: nat, a: Agent, c: Condition, outcome: nat, amount: int, shares: int, time: nat)
    requires CountsValid(s) && a in s.agents && id !in s.bets
    ensures CountsValid(AfterBet(s, id, a, c, outcome, amount, shares, time))
  {
    var n := AfterBet(s, id, a, c, outcome, amount, shares, time);
    SizeAdd(s.bets, id, n.bets[id]);
    SizeAdd(s.agents, a, n.agents[a]);
    ActiveAdd(s.agents, a, n.agents[a]);
    BetMarkets(s.participants, s.markets, (a, c), n.participants[(a, c)]);
  }

  lemma MultisigKeepsCounts(s: State, service: nat, multisig: Agent)
    requires CountsValid(s)
    ensures CountsValid(AfterMultisig(s, service, multisig))
  {
    if service in s.services && multisig !in s.agents {
      SizeAdd(s.agents, multisig, TraderAgent(ZERO, 0, false));
      ActiveAdd(s.agents, multisig, TraderAgent(ZERO, 0, false));
    }
  }

  lemma ResolutionKeepsCounts(s: State, c: Condition, winning: int, payouts: seq<nat>, time: nat, listed: seq<Agent>)
    requires CountsValid(s)
    ensures CountsValid(AfterResolution(s, c, winning, payouts, time, listed))
  {
    var m := s.(resolutions := s.resolutions + {c});
    SettlingAllKeepsCounts(m, listed, c, winning, payouts, time);
    CountsKeptValid(s, AfterResolution(s, c, winning, payouts, time, listed));
  }

  lemma StepKeepsCounts(s: State, e: Event)
    requires CountsValid(s) && Possible(s, e)
    ensures CountsValid(Step(s, e))
  {
    match e
    case RegisterInstance(_, _) => CountsKeptValid(s, Step(s, e));
    case CreateMultisig(service, multisig) => MultisigKeepsCounts(s, service, multisig);
    case AddQuestion(_) => CountsKeptValid(s, Step(s, e));
    case Fill(id, a, c, outcome, isBuying, maker, taker, fee, time) =>
      if a in s.agents {
        BetKeepsCounts(s, id, a, c, outcome, BetAmount(isBuying, maker, taker, fee), SharesOf(isBuying, maker, taker), time);
      }
    case Resolve(c, winning, payouts, time, listed) => ResolutionKeepsCounts(s, c, winning, payouts, time, listed);
    case Redeem(_, _, _, _) => CountsKeptValid(s, Step(s, e));
  }

  lemma StepKeepsAll(s: State, e: Event)
    ensures Valid(s) && CountsValid(s) && Possible(s, e) ==> Valid(Step(s, e)) && CountsValid(Step(s, e))
  {
    if Valid(s) && CountsValid(s) && Possible(s, e) {
      StepKeepsValid(s, e);
      StepKeepsCounts(s, e);
    }
  }

  lemma {:induction false} RunCounts(events: seq<Event>)
    requires PossibleRun(INITIAL, events)
    ensures CountsValid(Run(INITIAL, events))
  {
    if events == [] {
      assert Active(map[]) == {};
    } else {
      var init := events[..|events| - 1];
      forall i | 0 <= i < |init|
        ensures Possible(Run(INITIAL, init[..i]), init[i])
      {
        assert init[..i] == events[..i];
      }
      RunCounts(init);
      StepKeepsCounts(Run(INITIAL, init), events[|events| - 1]);
    }
  }
}
