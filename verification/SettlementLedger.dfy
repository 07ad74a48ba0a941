/**
 What the rows of the prediction markets hold, told from the events alone: for every participant what it
 traded, holds, was paid and settled on, for every agent its bets, for every day what falls in it.
 */
module SettlementLedger {
  import opened Wrappers
  import Powers
  import opened SettlementBooks
  import opened Settlement
  import opened SettlementProofs

  // --- Who and what is known --------------------------------------------------------------------

  predicate IsRegistered(events: seq<Event>, service: nat)
  {
    events != [] &&
    var last := events[|events| - 1];
    IsRegistered(events[..|events| - 1], service)
    || (last.RegisterInstance? && last.service == service && last.agentId == PREDICT_AGENT_ID)
  }

  /** A multisig of a service registered before it. */
  predicate IsAgent(events: seq<Event>, a: Agent)
  {
    events != [] &&
    var init, last := events[..|events| - 1], events[|events| - 1];
    IsAgent(init, a) || (last.CreateMultisig? && last.multisig == a && IsRegistered(init, last.service))
  }

  predicate HasQuestion(events: seq<Event>, c: Condition)
  {
    events != [] &&
    var last := events[|events| - 1];
    HasQuestion(events[..|events| - 1], c) || (last.AddQuestion? && last.condition == c)
  }

  /** A resolution before the question is there is none. */
  predicate IsResolved(events: seq<Event>, c: Condition)
  {
    events != [] &&
    var init, last := events[..|events| - 1], events[|events| - 1];
    IsResolved(init, c) || (last.Resolve? && last.condition == c && HasQuestion(init, c))
  }

  /** The event is a fill of an agent, on this condition. */
  predicate Trades(before: seq<Event>, e: Event, a: Agent, c: Condition)
  {
    e.Fill? && e.maker == a && e.condition == c && IsAgent(before, a)
  }

  predicate TakesPart(events: seq<Event>, a: Agent, c: Condition)
  {
    events != [] &&
    var init, last := events[..|events| - 1], events[|events| - 1];
    TakesPart(init, a, c) || Trades(init, last, a, c)
  }

  /** The question was there at the participant's first trade: only then can it settle. */
  predicate IsLinked(events: seq<Event>, a: Agent, c: Condition)
  {
    events != [] &&
    var init, last := events[..|events| - 1], events[|events| - 1];
    IsLinked(init, a, c) || (!TakesPart(init, a, c) && Trades(init, last, a, c) && HasQuestion(init, c))
  }

  /** The event is a redemption of a participant in a tracked market. */
  predicate Redeems(before: seq<Event>, e: Event, a: Agent, c: Condition)
  {
    && e.Redeem? && e.redeemer == a && e.condition == c
    && IsAgent(before, a) && HasQuestion(before, c) && TakesPart(before, a, c)
  }

  /** The event is the first resolution of a tracked market, and the participant is one that settles. */
  predicate Resolves(before: seq<Event>, e: Event, a: Agent, c: Condition)
  {
    e.Resolve? && e.condition == c && HasQuestion(before, c) && !IsResolved(before, c) && IsLinked(before, a, c)
  }

  // --- Amounts ----------------------------------------------------------------------------------

  /** What a fill costs: a buy its collateral and its fee, a sell less what is left of its proceeds after the fee. */
  function Spent(e: Event): (amount: int)
    requires e.Fill?
  {
    if e.isBuying then e.makerAmount + e.fee
    else if e.fee >= e.takerAmount then 0
    else e.fee - e.takerAmount
  }

  /** The shares a fill brings, those of a sell taken away. */
  function Gained(e: Event): (shares: int)
    requires e.Fill?
  {
    if e.isBuying then e.takerAmount else -(e.makerAmount as int)
  }

  function Positive(shares: int): (n: nat)
  {
    if shares > 0 then shares else 0
  }

  function TotalOf(payouts: seq<nat>): (t: nat)
  {
    if payouts == [] then 0 else payouts[0] + TotalOf(payouts[1..])
  }

  /** q is what shares of outcome i are paid when there is no single winner: their part, rounded down. */
  ghost predicate IsPart(q: nat, shares: int, payouts: seq<nat>, i: nat)
  {
    var payout, total := if i < |payouts| then payouts[i] else 0, TotalOf(payouts);
    if shares > 0 && total > 0 then q * total <= shares * payout < (q + 1) * total else q == 0
  }

  /** e is what a participant holding these shares of the two outcomes is to be paid. */
  ghost predicate IsPayout(e: nat, shares0: int, shares1: int, winning: int, payouts: seq<nat>)
  {
    if winning == 0 then e == Positive(shares0)
    else if winning == 1 then e == Positive(shares1)
    else exists q0: nat, q1: nat :: IsPart(q0, shares0, payouts, 0) && IsPart(q1, shares1, payouts, 1) && e == q0 + q1
  }

  /** The payout, chosen by what it has to be; it is the one there is. */
  ghost function PayoutOf(shares0: int, shares1: int, winning: int, payouts: seq<nat>): (e: nat)
    ensures IsPayout(e, shares0, shares1, winning, payouts)
  {
    PayoutExists(shares0, shares1, winning, payouts);
    var e :| IsPayout(e, shares0, shares1, winning, payouts);
    e
  }

  lemma {:induction false} TotalIsSum(payouts: seq<nat>)
    ensures TotalOf(payouts) == SumOf(payouts)
  {
    if |payouts| > 1 {
      var init, last := payouts[..|payouts| - 1], payouts[|payouts| - 1];
      TotalIsSum(payouts[1..]);
      TotalIsSum(payouts[1..][..|payouts| - 2]);
      TotalIsSum(init);
      assert payouts[1..][..|payouts| - 2] == init[1..];
    }
  }

  lemma PartIs(shares: int, payouts: seq<nat>, i: nat)
    ensures IsPart(Part(shares, At(payouts, i), SumOf(payouts)), shares, payouts, i)
  {
    TotalIsSum(payouts);
    if shares > 0 && SumOf(payouts) > 0 {
      Powers.DivBounds(shares * At(payouts, i), SumOf(payouts));
    }
  }

  lemma PartUnique(q: nat, r: nat, shares: int, payouts: seq<nat>, i: nat)
    requires IsPart(q, shares, payouts, i) && IsPart(r, shares, payouts, i)
    ensures q == r
  {
    var total := TotalOf(payouts);
    if shares > 0 && total > 0 {
      Powers.MulCancelLt(q, r + 1, total);
      Powers.MulCancelLt(r, q + 1, total);
    }
  }

  lemma PayoutExists(shares0: int, shares1: int, winning: int, payouts: seq<nat>)
    ensures exists e: nat :: IsPayout(e, shares0, shares1, winning, payouts)
  {
    ExpectedIsPayout(Participant(false, ZERO, 0, shares0, shares1, false), winning, payouts);
  }

  lemma ExpectedIsPayout(p: Participant, winning: int, payouts: seq<nat>)
    ensures IsPayout(ExpectedPayout(p, winning, payouts), p.shares0, p.shares1, winning, payouts)
  {
    PartIs(p.shares0, payouts, 0);
    PartIs(p.shares1, payouts, 1);
  }

  /** What a settlement expects is what its shares have to be paid. */
  lemma ExpectedIsPayoutOf(p: Participant, winning: int, payouts: seq<nat>)
    ensures ExpectedPayout(p, winning, payouts) == PayoutOf(p.shares0, p.shares1, winning, payouts)
  {
    ExpectedIsPayout(p, winning, payouts);
    var e := PayoutOf(p.shares0, p.shares1, winning, payouts);
    if winning != 0 && winning != 1 {
      var q0: nat, q1: nat :| IsPart(q0, p.shares0, payouts, 0) && IsPart(q1, p.shares1, payouts, 1) && e == q0 + q1;
      PartIs(p.shares0, payouts, 0);
      PartIs(p.shares1, payouts, 1);
      PartUnique(q0, Part(p.shares0, At(payouts, 0), SumOf(payouts)), p.shares0, payouts, 0);
      PartUnique(q1, Part(p.shares1, At(payouts, 1), SumOf(payouts)), p.shares1, payouts, 1);
    }
  }

  // --- What the events say ----------------------------------------------------------------------

  datatype Outturn = Outturn(amount: int, expected: nat)

  /** What a participant traded, was paid, holds of the two outcomes, how often it traded, and what it settled on. */
  datatype Account = Account(traded: int, paid: nat, shares0: int, shares1: int, bets: nat, settlement: Option<Outturn>)

  ghost function AccountOf(events: seq<Event>, a: Agent, c: Condition): (x: Account)
  {
    if events == [] then Account(0, 0, 0, 0, 0, None)
    else
      var init, e := events[..|events| - 1], events[|events| - 1];
      var was := AccountOf(init, a, c);
      if Trades(init, e, a, c) then
        was.(traded := was.traded + Spent(e), bets := was.bets + 1,
             shares0 := was.shares0 + (if e.outcome == 0 then Gained(e) else 0),
             shares1 := was.shares1 + (if e.outcome == 0 then 0 else Gained(e)))
      else if Redeems(init, e, a, c) then was.(paid := was.paid + e.amount)
      else if Resolves(init, e, a, c) then
        was.(settlement := Some(Outturn(was.traded, PayoutOf(was.shares0, was.shares1, e.winning, e.payouts))))
      else was
  }

  function BetsOf(events: seq<Event>, a: Agent): (n: nat)
  {
    if events == [] then 0
    else
      var init, e := events[..|events| - 1], events[|events| - 1];
      BetsOf(init, a) + if e.Fill? && Trades(init, e, a, e.condition) then 1 else 0
  }

  /** The bet of a fill; its participant's settlement counts it. */
  ghost function BetOf(events: seq<Event>, id: nat): (b: Option<Bet>)
  {
    if events == [] then None
    else
      var init, e := events[..|events| - 1], events[|events| - 1];
      var was := BetOf(init, id);
      if e.Fill? && e.id == id && IsAgent(init, e.maker) then Some(Bet(e.maker, e.condition, e.outcome, Spent(e), Gained(e), false))
      else if was.Some? && Resolves(init, e, was.value.agent, was.value.condition) then Some(was.value.(counted := true))
      else was
  }

  /** The time is within the 24 hours that start with the day. */
  predicate InDay(time: nat, day: Day)
  {
    day % 86400 == 0 && day <= time < day + 86400
  }

  /** A day with one more settlement in it: what was traded is settled, and the profit is the payout less that. */
  ghost function DayWith(d: Daily, x: Account, c: Condition, winning: int, payouts: seq<nat>): (n: Daily)
  {
    d.(settled := d.settled + x.traded, markets := d.markets + {c},
       profit := d.profit + PayoutOf(x.shares0, x.shares1, winning, payouts) - x.traded)
  }

  /** What a day holds for an agent: the bets, amounts paid and settlements that fall in it. */
  ghost function DayOfAgent(events: seq<Event>, a: Agent, day: Day): (d: Daily)
  {
    if events == [] then Daily(0, 0, 0, 0, 0, {})
    else
      var init, e := events[..|events| - 1], events[|events| - 1];
      var was := DayOfAgent(init, a, day);
      if e.Fill? && InDay(e.time, day) && Trades(init, e, a, e.condition) then
        was.(bets := was.bets + 1, traded := was.traded + Spent(e))
      else if e.Redeem? && InDay(e.time, day) && Redeems(init, e, a, e.condition) then was.(payout := was.payout + e.amount)
      else if e.Resolve? && InDay(e.time, day) && Resolves(init, e, a, e.condition) then
        DayWith(was, AccountOf(init, a, e.condition), e.condition, e.winning, e.payouts)
      else was
  }

  // --- What the rows show -----------------------------------------------------------------------

  ghost predicate NamesShow(s: State, events: seq<Event>)
  {
    && (forall v :: v in s.services <==> IsRegistered(events, v))
    && (forall c :: c in s.questions <==> HasQuestion(events, c))
    && (forall c :: c in s.resolutions <==> IsResolved(events, c))
    && (forall a :: a in s.agents <==> IsAgent(events, a))
  }

  function AgentRow(s: State, a: Agent): (r: TraderAgent)
  {
    if a in s.agents then s.agents[a] else TraderAgent(ZERO, 0, false)
  }

  ghost predicate AgentShows(s: State, events: seq<Event>, a: Agent)
  {
    AgentRow(s, a).bets == BetsOf(events, a) && (AgentRow(s, a).active <==> BetsOf(events, a) > 0)
  }

  function Row(s: State, a: Agent, c: Condition): (p: Participant)
  {
    if (a, c) in s.participants then s.participants[(a, c)] else Participant(false, ZERO, 0, 0, 0, false)
  }

  ghost predicate RowShows(p: Participant, x: Account)
  {
    && p.amounts.traded == x.traded && p.amounts.payout == x.paid && p.bets == x.bets
    && p.shares0 == x.shares0 && p.shares1 == x.shares1 && (p.settled <==> x.settlement.Some?)
    && p.amounts.settled == (if x.settlement.Some? then x.settlement.value.amount else 0)
    && p.amounts.expected == (if x.settlement.Some? then x.settlement.value.expected else 0)
  }

  ghost predicate ParticipantShows(s: State, events: seq<Event>, a: Agent, c: Condition)
  {
    && ((a, c) in s.participants <==> TakesPart(events, a, c)) && (Row(s, a, c).linked <==> IsLinked(events, a, c))
    && RowShows(Row(s, a, c), AccountOf(events, a, c))
  }

  function BetAt(s: State, id: nat): (b: Option<Bet>)
  {
    if id in s.bets then Some(s.bets[id]) else None
  }

  function DayAt(s: State, a: Agent, day: Day): (d: Daily)
  {
    if (a, day) in s.daily then s.daily[(a, day)] else Daily(0, 0, 0, 0, 0, {})
  }

  ghost predicate AgentsShow(s: State, events: seq<Event>)
  {
    forall a :: AgentShows(s, events, a)
  }

  ghost predicate ParticipantsShow(s: State, events: seq<Event>)
  {
    forall a, c :: ParticipantShows(s, events, a, c)
  }

  ghost predicate BetsShow(s: State, events: seq<Event>)
  {
    forall id :: BetAt(s, id) == BetOf(events, id)
  }

  ghost predicate DaysShow(s: State, events: seq<Event>)
  {
    forall a, day :: DayAt(s, a, day) == DayOfAgent(events, a, day)
  }

  ghost predicate Shows(s: State, events: seq<Event>)
  {
    NamesShow(s, events) && AgentsShow(s, events) && ParticipantsShow(s, events) && BetsShow(s, events) && DaysShow(s, events)
  }

  // --- Names ------------------------------------------------------------------------------------

  lemma {:induction false} SettlingAllNames(s: State, listed: seq<Agent>, c: Condition, winning: int, payouts: seq<nat>, time: nat)
    ensures var n := AfterSettlingAll(s, listed, c, winning, payouts, time);
            && n.services == s.services && n.questions == s.questions && n.resolutions == s.resolutions
            && n.agents.Keys == s.agents.Keys
            && forall a :: AgentRow(n, a).bets == AgentRow(s, a).bets && AgentRow(n, a).active == AgentRow(s, a).active
  {
    if listed != [] {
      SettlingAllNames(s, listed[..|listed| - 1], c, winning, payouts, time);
    }
  }

  lemma ResolvedNames(s: State, e: Event)
    requires e.Resolve?
    ensures var n := Step(s, e);
            && n.services == s.services && n.questions == s.questions && n.agents.Keys == s.agents.Keys
            && n.resolutions == if e.condition in s.questions then s.resolutions + {e.condition} else s.resolutions
  {
    SettlingAllNames(s.(resolutions := s.resolutions + {e.condition}), e.listed, e.condition, e.winning, e.payouts, e.time);
  }

  lemma StepNames(s: State, events: seq<Event>)
    requires events != [] && NamesShow(s, events[..|events| - 1])
    ensures NamesShow(Step(s, events[|events| - 1]), events)
  {
    var e := events[|events| - 1];
    if e.Resolve? {
      ResolvedNames(s, e);
    }
  }

  lemma StepAgent(s: State, events: seq<Event>, a: Agent)
    requires events != [] && NamesShow(s, events[..|events| - 1]) && AgentShows(s, events[..|events| - 1], a)
    ensures AgentShows(Step(s, events[|events| - 1]), events, a)
  {
    var init, e := events[..|events| - 1], events[|events| - 1];
    if e.Resolve? {
      SettlingAllNames(s.(resolutions := s.resolutions + {e.condition}), e.listed, e.condition, e.winning, e.payouts, e.time);
    }
  }

  // --- Trades -----------------------------------------------------------------------------------

  lemma AmountsAre(e: Event)
    requires e.Fill?
    ensures BetAmount(e.isBuying, e.makerAmount, e.takerAmount, e.fee) == Spent(e)
    ensures SharesOf(e.isBuying, e.makerAmount, e.takerAmount) == Gained(e)
  {
  }

  lemma InDayIs(time: nat, day: Day)
    ensures InDay(time, day) <==> DayOf(time) == day
  {
  }

  lemma FillParticipant(s: State, events: seq<Event>, a: Agent, c: Condition)
    requires events != [] && events[|events| - 1].Fill? && NamesShow(s, events[..|events| - 1])
    requires ParticipantShows(s, events[..|events| - 1], a, c)
    ensures ParticipantShows(Step(s, events[|events| - 1]), events, a, c)
  {
    AmountsAre(events[|events| - 1]);
  }

  lemma FillDay(s: State, events: seq<Event>, a: Agent, day: Day)
    requires events != [] && events[|events| - 1].Fill? && NamesShow(s, events[..|events| - 1])
    requires DayAt(s, a, day) == DayOfAgent(events[..|events| - 1], a, day)
    ensures DayAt(Step(s, events[|events| - 1]), a, day) == DayOfAgent(events, a, day)
  {
    AmountsAre(events[|events| - 1]);
    InDayIs(events[|events| - 1].time, day);
  }

  lemma FillBet(s: State, events: seq<Event>, id: nat)
    requires events != [] && events[|events| - 1].Fill? && NamesShow(s, events[..|events| - 1])
    requires BetAt(s, id) == BetOf(events[..|events| - 1], id)
    ensures BetAt(Step(s, events[|events| - 1]), id) == BetOf(events, id)
  {
    AmountsAre(events[|events| - 1]);
  }

  // --- Redemptions ------------------------------------------------------------------------------

  lemma RedeemParticipant(s: State, events: seq<Event>, a: Agent, c: Condition)
    requires events != [] && events[|events| - 1].Redeem? && NamesShow(s, events[..|events| - 1])
    requires ParticipantShows(s, events[..|events| - 1], a, c)
    ensures ParticipantShows(Step(s, events[|events| - 1]), events, a, c)
  {
  }

  lemma RedeemDay(s: State, events: seq<Event>, a: Agent, day: Day)
    requires events != [] && events[|events| - 1].Redeem? && NamesShow(s, events[..|events| - 1])
    requires ParticipantsShow(s, events[..|events| - 1])
    requires DayAt(s, a, day) == DayOfAgent(events[..|events| - 1], a, day)
    ensures DayAt(Step(s, events[|events| - 1]), a, day) == DayOfAgent(events, a, day)
  {
    var e := events[|events| - 1];
    InDayIs(e.time, day);
    assert ParticipantShows(s, events[..|events| - 1], e.redeemer, e.condition);
  }

  // --- Resolutions ------------------------------------------------------------------------------

  /** The listed participants can all settle. */
  ghost predicate AllSettle(s: State, c: Condition, listed: seq<Agent>)
  {
    && (forall i, j | 0 <= i < j < |listed| :: listed[i] != listed[j])
    && forall a | a in listed :: Settles(s, a, c)
  }

  lemma AllButLast(s: State, c: Condition, listed: seq<Agent>)
    requires AllSettle(s, c, listed) && listed != []
    ensures var init, last := listed[..|listed| - 1], listed[|listed| - 1];
            AllSettle(s, c, init) && last !in init && forall a :: a in listed <==> a in init || a == last
  {
    assert listed == listed[..|listed| - 1] + [listed[|listed| - 1]];
  }

  lemma NextSettles(s: State, listed: seq<Agent>, c: Condition, winning: int, payouts: seq<nat>, time: nat)
    requires AllSettle(s, c, listed) && listed != []
    ensures var m, a := AfterSettlingAll(s, listed[..|listed| - 1], c, winning, payouts, time), listed[|listed| - 1];
            Settles(m, a, c) && Row(m, a, c) == Row(s, a, c)
  {
    AllButLast(s, c, listed);
    SettlingAllSettles(s, listed[..|listed| - 1], c, winning, payouts, time);
  }

  /** The day of an agent after it settles on a market. */
  function SettledDay(d: Daily, p: Participant, c: Condition, winning: int, payouts: seq<nat>): (n: Daily)
  {
    var b := Settling(p, winning, payouts);
    d.(profit := d.profit + (b.expected - b.settled), settled := d.settled + b.settled, markets := d.markets + {c})
  }

  lemma {:induction false} SettlingAllDays(s: State, listed: seq<Agent>, c: Condition, winning: int, payouts: seq<nat>, time: nat,
                                           a: Agent, day: Day)
    requires AllSettle(s, c, listed)
    ensures DayAt(AfterSettlingAll(s, listed, c, winning, payouts, time), a, day) ==
              if a in listed && DayOf(time) == day then SettledDay(DayAt(s, a, day), Row(s, a, c), c, winning, payouts)
              else DayAt(s, a, day)
  {
    if listed != [] {
      AllButLast(s, c, listed);
      NextSettles(s, listed, c, winning, payouts, time);
      SettlingAllDays(s, listed[..|listed| - 1], c, winning, payouts, time, a, day);
    }
  }

  lemma {:induction false} SettlingAllBets(s: State, listed: seq<Agent>, c: Condition, winning: int, payouts: seq<nat>, time: nat,
                                           id: nat)
    requires AllSettle(s, c, listed)
    ensures BetAt(AfterSettlingAll(s, listed, c, winning, payouts, time), id) ==
              if id in s.bets && s.bets[id].condition == c && s.bets[id].agent in listed then Some(s.bets[id].(counted := true))
              else BetAt(s, id)
  {
    if listed != [] {
      AllButLast(s, c, listed);
      NextSettles(s, listed, c, winning, payouts, time);
      SettlingAllBets(s, listed[..|listed| - 1], c, winning, payouts, time, id);
    }
  }

  /** Those listed are the participants that a first resolution settles. */
  lemma ListedResolve(s: State, events: seq<Event>, e: Event, a: Agent)
    requires Valid(s) && NamesShow(s, events) && ParticipantsShow(s, events) && e.Resolve? && IsListing(s, e.condition, e.listed)
    requires HasQuestion(events, e.condition) && !IsResolved(events, e.condition)
    ensures a in e.listed <==> Resolves(events, e, a, e.condition)
    ensures a in e.listed ==> Settles(s, a, e.condition) && Row(s, a, e.condition).amounts.settled == 0
  {
    assert ParticipantShows(s, events, a, e.condition);
    if (a, e.condition) in s.participants {
      assert ParticipantValid(s, a, e.condition);
    }
  }

  lemma ListedOnce(s: State, c: Condition, listed: seq<Agent>)
    requires IsListing(s, c, listed) && forall a | a in listed :: Settles(s, a, c)
    ensures AllSettle(s.(resolutions := s.resolutions + {c}), c, listed)
  {
  }

  lemma ListedAllSettle(s: State, events: seq<Event>, e: Event)
    requires Valid(s) && NamesShow(s, events) && ParticipantsShow(s, events) && e.Resolve? && IsListing(s, e.condition, e.listed)
    requires HasQuestion(events, e.condition) && !IsResolved(events, e.condition)
    ensures AllSettle(s.(resolutions := s.resolutions + {e.condition}), e.condition, e.listed)
  {
    forall a | a in e.listed
      ensures Settles(s, a, e.condition)
    {
      ListedResolve(s, events, e, a);
    }
    ListedOnce(s, e.condition, e.listed);
  }

  ghost predicate ResolveHypotheses(s: State, events: seq<Event>)
  {
    && events != [] && events[|events| - 1].Resolve?
    && Valid(s) && NamesShow(s, events[..|events| - 1]) && ParticipantsShow(s, events[..|events| - 1])
    && IsListing(s, events[|events| - 1].condition, events[|events| - 1].listed)
  }

  /** A resolution settles the rows of those it resolves, and changes no other. */
  lemma ResolvedRow(s: State, events: seq<Event>, e: Event, a: Agent, c: Condition)
    requires Valid(s) && NamesShow(s, events) && ParticipantsShow(s, events) && e.Resolve? && IsListing(s, e.condition, e.listed)
    ensures var n := Step(s, e);
            && ((a, c) in n.participants <==> (a, c) in s.participants)
            && Row(n, a, c) == if Resolves(events, e, a, c) then SettledRow(Row(s, a, c), e.winning, e.payouts) else Row(s, a, c)
  {
    if HasQuestion(events, e.condition) && !IsResolved(events, e.condition) {
      ListedResolve(s, events, e, a);
      ListedAllSettle(s, events, e);
      SettlingAllSettles(s.(resolutions := s.resolutions + {e.condition}), e.listed, e.condition, e.winning, e.payouts, e.time);
    }
  }

  lemma ResolvedDay(s: State, events: seq<Event>, e: Event, a: Agent, day: Day)
    requires Valid(s) && NamesShow(s, events) && ParticipantsShow(s, events) && e.Resolve? && IsListing(s, e.condition, e.listed)
    ensures DayAt(Step(s, e), a, day) ==
              if Resolves(events, e, a, e.condition) && DayOf(e.time) == day
              then SettledDay(DayAt(s, a, day), Row(s, a, e.condition), e.condition, e.winning, e.payouts) else DayAt(s, a, day)
  {
    if HasQuestion(events, e.condition) && !IsResolved(events, e.condition) {
      ListedResolve(s, events, e, a);
      ListedAllSettle(s, events, e);
      SettlingAllDays(s.(resolutions := s.resolutions + {e.condition}), e.listed, e.condition, e.winning, e.payouts, e.time, a, day);
    }
  }

  /** A first resolution counts the bets of those it lists. */
  lemma FirstResolutionBet(s: State, e: Event, id: nat)
    requires e.Resolve? && e.condition in s.questions && e.condition !in s.resolutions
    requires AllSettle(s.(resolutions := s.resolutions + {e.condition}), e.condition, e.listed)
    ensures BetAt(Step(s, e), id) ==
              if id in s.bets && s.bets[id].condition == e.condition && s.bets[id].agent in e.listed
              then Some(s.bets[id].(counted := true)) else BetAt(s, id)
  {
    SettlingAllBets(s.(resolutions := s.resolutions + {e.condition}), e.listed, e.condition, e.winning, e.payouts, e.time, id);
  }

  lemma LaterResolution(s: State, e: Event)
    requires e.Resolve? && (e.condition !in s.questions || e.condition in s.resolutions)
    ensures Step(s, e) == s
  {
  }

  lemma ResolvedBet(s: State, events: seq<Event>, e: Event, id: nat)
    requires Valid(s) && NamesShow(s, events) && ParticipantsShow(s, events) && e.Resolve? && IsListing(s, e.condition, e.listed)
    ensures BetAt(Step(s, e), id) ==
              if id in s.bets && Resolves(events, e, s.bets[id].agent, s.bets[id].condition) then Some(s.bets[id].(counted := true))
              else BetAt(s, id)
  {
    if HasQuestion(events, e.condition) && !IsResolved(events, e.condition) {
      ListedAllSettle(s, events, e);
      FirstResolutionBet(s, e, id);
      if id in s.bets {
        ListedResolve(s, events, e, s.bets[id].agent);
      }
    } else {
      LaterResolution(s, e);
    }
  }

  lemma SettledRowShows(p: Participant, x: Account, winning: int, payouts: seq<nat>)
    requires RowShows(p, x)
    ensures RowShows(SettledRow(p, winning, payouts),
                     x.(settlement := Some(Outturn(x.traded, PayoutOf(x.shares0, x.shares1, winning, payouts)))))
  {
    ExpectedIsPayoutOf(p, winning, payouts);
  }

  lemma ResolveParticipant(s: State, events: seq<Event>, a: Agent, c: Condition)
    requires ResolveHypotheses(s, events)
    ensures ParticipantShows(Step(s, events[|events| - 1]), events, a, c)
  {
    var init, e := events[..|events| - 1], events[|events| - 1];
    assert ParticipantShows(s, init, a, c);
    ResolvedRow(s, init, e, a, c);
    SettledRowShows(Row(s, a, c), AccountOf(init, a, c), e.winning, e.payouts);
  }

  lemma SettledDayShows(d: Daily, p: Participant, x: Account, c: Condition, winning: int, payouts: seq<nat>)
    requires RowShows(p, x) && p.amounts.settled == 0
    ensures SettledDay(d, p, c, winning, payouts) == DayWith(d, x, c, winning, payouts)
  {
    ExpectedIsPayoutOf(p, winning, payouts);
  }

  lemma ResolveDay(s: State, events: seq<Event>, a: Agent, day: Day)
    requires ResolveHypotheses(s, events) && DayAt(s, a, day) == DayOfAgent(events[..|events| - 1], a, day)
    ensures DayAt(Step(s, events[|events| - 1]), a, day) == DayOfAgent(events, a, day)
  {
    var init, e := events[..|events| - 1], events[|events| - 1];
    InDayIs(e.time, day);
    ResolvedDay(s, init, e, a, day);
    if Resolves(init, e, a, e.condition) {
      assert ParticipantShows(s, init, a, e.condition);
      NotYetSettled(s, init, e, a);
      SettledDayShows(DayAt(s, a, day), Row(s, a, e.condition), AccountOf(init, a, e.condition), e.condition, e.winning, e.payouts);
    }
  }

  /** What a participant settles on is all it traded. */
  lemma NotYetSettled(s: State, events: seq<Event>, e: Event, a: Agent)
    requires Valid(s) && NamesShow(s, events) && ParticipantsShow(s, events) && e.Resolve? && IsListing(s, e.condition, e.listed)
    requires Resolves(events, e, a, e.condition)
    ensures Row(s, a, e.condition).amounts.settled == 0
  {
    ListedResolve(s, events, e, a);
  }

  lemma ResolveBet(s: State, events: seq<Event>, id: nat)
    requires ResolveHypotheses(s, events) && BetAt(s, id) == BetOf(events[..|events| - 1], id)
    ensures BetAt(Step(s, events[|events| - 1]), id) == BetOf(events, id)
  {
    ResolvedBet(s, events[..|events| - 1], events[|events| - 1], id);
  }

  // --- Names enter nothing ----------------------------------------------------------------------

  predicate IsName(e: Event)
  {
    e.RegisterInstance? || e.CreateMultisig? || e.AddQuestion?
  }

  lemma NameKeepsRows(s: State, e: Event)
    requires IsName(e)
    ensures var n := Step(s, e); n.participants == s.participants && n.daily == s.daily && n.bets == s.bets
  {
  }

  lemma NameParticipant(s: State, events: seq<Event>, a: Agent, c: Condition)
    requires events != [] && IsName(events[|events| - 1]) && ParticipantShows(s, events[..|events| - 1], a, c)
    ensures ParticipantShows(Step(s, events[|events| - 1]), events, a, c)
  {
    NameKeepsRows(s, events[|events| - 1]);
  }

  // --- Runs -------------------------------------------------------------------------------------

  ghost predicate StepHypotheses(s: State, events: seq<Event>)
  {
    && events != [] && Valid(s) && Possible(s, events[|events| - 1])
    && NamesShow(s, events[..|events| - 1]) && ParticipantsShow(s, events[..|events| - 1])
  }

  lemma StepParticipant(s: State, events: seq<Event>, a: Agent, c: Condition)
    requires StepHypotheses(s, events)
    ensures ParticipantShows(Step(s, events[|events| - 1]), events, a, c)
  {
    var e := events[|events| - 1];
    assert ParticipantShows(s, events[..|events| - 1], a, c);
    if e.Fill? {
      FillParticipant(s, events, a, c);
    } else if e.Redeem? {
      RedeemParticipant(s, events, a, c);
    } else if e.Resolve? {
      ResolveParticipant(s, events, a, c);
    } else {
      NameParticipant(s, events, a, c);
    }
  }

  lemma StepDay(s: State, events: seq<Event>, a: Agent, day: Day)
    requires StepHypotheses(s, events) && DayAt(s, a, day) == DayOfAgent(events[..|events| - 1], a, day)
    ensures DayAt(Step(s, events[|events| - 1]), a, day) == DayOfAgent(events, a, day)
  {
    var e := events[|events| - 1];
    if e.Fill? {
      FillDay(s, events, a, day);
    } else if e.Redeem? {
      RedeemDay(s, events, a, day);
    } else if e.Resolve? {
      ResolveDay(s, events, a, day);
    } else {
      NameKeepsRows(s, e);
    }
  }

  lemma RedeemBet(s: State, e: Event)
    requires e.Redeem?
    ensures Step(s, e).bets == s.bets
  {
  }

  lemma StepBet(s: State, events: seq<Event>, id: nat)
    requires StepHypotheses(s, events) && BetAt(s, id) == BetOf(events[..|events| - 1], id)
    ensures BetAt(Step(s, events[|events| - 1]), id) == BetOf(events, id)
  {
    var e := events[|events| - 1];
    if e.Fill? {
      FillBet(s, events, id);
    } else if e.Redeem? {
      RedeemBet(s, e);
    } else if e.Resolve? {
      ResolveBet(s, events, id);
    } else {
      NameKeepsRows(s, e);
    }
  }

  lemma StepShows(s: State, events: seq<Event>)
    requires events != [] && Valid(s) && Possible(s, events[|events| - 1]) && Shows(s, events[..|events| - 1])
    ensures Shows(Step(s, events[|events| - 1]), events)
  {
    var n := Step(s, events[|events| - 1]);
    StepNames(s, events);
    forall a
      ensures AgentShows(n, events, a)
    {
      assert AgentShows(s, events[..|events| - 1], a);
      StepAgent(s, events, a);
    }
    forall a, c
      ensures ParticipantShows(n, events, a, c)
    {
      StepParticipant(s, events, a, c);
    }
    forall a, day
      ensures DayAt(n, a, day) == DayOfAgent(events, a, day)
    {
      StepDay(s, events, a, day);
    }
    forall id
      ensures BetAt(n, id) == BetOf(events, id)
    {
      StepBet(s, events, id);
    }
  }

  lemma PossiblePrefix(events: seq<Event>, n: nat)
    requires PossibleRun(INITIAL, events) && n <= |events|
    ensures PossibleRun(INITIAL, events[..n])
    ensures n < |events| ==> Possible(Run(INITIAL, events[..n]), events[n])
  {
    forall i | 0 <= i < n
      ensures Possible(Run(INITIAL, events[..n][..i]), events[..n][i])
    {
      assert events[..n][..i] == events[..i];
    }
  }

  /**
   After any run every participant's row has the amounts, shares, bets and settlement that the events give
   it, every bet its fill, every agent its bets, and every day what falls in it.
   */
  lemma {:induction false} RunShows(events: seq<Event>)
    requires PossibleRun(INITIAL, events)
    ensures Shows(Run(INITIAL, events), events)
  {
    if events != [] {
      var init := events[..|events| - 1];
      PossiblePrefix(events, |events| - 1);
      RunShows(init);
      RunIsValid(init);
      StepShows(Run(INITIAL, init), events);
    }
  }

  // --- Settlements ------------------------------------------------------------------------------

  lemma {:induction false} ResolvedStays(events: seq<Event>, c: Condition, n: nat)
    requires n <= |events| && IsResolved(events[..n], c)
    ensures IsResolved(events, c)
    decreases |events|
  {
    if n < |events| {
      assert events[..|events| - 1][..n] == events[..n];
      ResolvedStays(events[..|events| - 1], c, n);
    } else {
      assert events[..n] == events;
    }
  }

  /** Event j is the one that settles the participant. */
  ghost predicate SettledBy(events: seq<Event>, a: Agent, c: Condition, j: nat)
  {
    j < |events| && Resolves(events[..j], events[j], a, c)
  }

  lemma SettledByBefore(events: seq<Event>, a: Agent, c: Condition, j: nat)
    requires events != [] && j < |events| - 1
    ensures SettledBy(events, a, c, j) <==> SettledBy(events[..|events| - 1], a, c, j)
    ensures events[..|events| - 1][..j] == events[..j] && events[..|events| - 1][j] == events[j]
  {
  }

  /** What the event that settles a participant books for it. */
  ghost function OutturnAt(events: seq<Event>, a: Agent, c: Condition, j: nat): (o: Outturn)
    requires SettledBy(events, a, c, j)
  {
    var x, e := AccountOf(events[..j], a, c), events[j];
    Outturn(x.traded, PayoutOf(x.shares0, x.shares1, e.winning, e.payouts))
  }

  /** A market resolves once, so a settlement stands. */
  lemma {:induction false} SettlementStands(events: seq<Event>, a: Agent, c: Condition, j: nat)
    requires SettledBy(events, a, c, j)
    ensures AccountOf(events, a, c).settlement == Some(OutturnAt(events, a, c, j))
    decreases |events|
  {
    var init, n := events[..|events| - 1], |events| - 1;
    if j < n {
      SettledByBefore(events, a, c, j);
      SettlementStands(init, a, c, j);
      assert init[..j + 1][..j] == init[..j];
      ResolvedStays(init, c, j + 1);
    }
  }

  lemma {:induction false} SettlementHasEvent(events: seq<Event>, a: Agent, c: Condition) returns (j: nat)
    requires AccountOf(events, a, c).settlement.Some?
    ensures SettledBy(events, a, c, j)
  {
    var init, n := events[..|events| - 1], |events| - 1;
    if Resolves(init, events[n], a, c) {
      j := n;
    } else {
      j := SettlementHasEvent(init, a, c);
      SettledByBefore(events, a, c, j);
    }
  }

  /**
   After any run a participant is settled exactly when an event resolved its market while it could settle;
   then the row holds, for good, what it had traded by that event as settled, and as expected what the
   shares its fills had brought it by then have to be paid: those of the winning outcome, one for one.
   */
  lemma SettledOnShares(events: seq<Event>, a: Agent, c: Condition)
    requires PossibleRun(INITIAL, events)
    ensures Row(Run(INITIAL, events), a, c).settled <==> exists j: nat :: SettledBy(events, a, c, j)
    ensures forall j: nat | SettledBy(events, a, c, j) ::
              var p, x, e := Row(Run(INITIAL, events), a, c), AccountOf(events[..j], a, c), events[j];
              p.amounts.settled == x.traded && p.amounts.expected >= 0
              && IsPayout(p.amounts.expected, x.shares0, x.shares1, e.winning, e.payouts)
  {
    RunShows(events);
    assert ParticipantShows(Run(INITIAL, events), events, a, c);
    if Row(Run(INITIAL, events), a, c).settled {
      var j := SettlementHasEvent(events, a, c);
    }
    forall j: nat | SettledBy(events, a, c, j)
      ensures AccountOf(events, a, c).settlement == Some(OutturnAt(events, a, c, j))
    {
      SettlementStands(events, a, c, j);
    }
  }
}
