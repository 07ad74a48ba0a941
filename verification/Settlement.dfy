/**
 Fills, resolutions and redemptions of squids/predict-polymarket/src: the handlers of logic.ts and the
 bet recording of handlers.ts, as steps on the rows they write.
 */
module Settlement {
  import opened Sums
  import opened SettlementBooks

  // --- Rows -------------------------------------------------------------------------------------

  /** `linked`: the question existed when the participant was created; only then can it settle. */
  datatype Participant = Participant(linked: bool, amounts: Amounts, bets: nat, shares0: int, shares1: int, settled: bool)

  /** `active`: it has a first participation. */
  datatype TraderAgent = TraderAgent(amounts: Amounts, bets: nat, active: bool)

  datatype Daily = Daily(bets: nat, traded: int, payout: int, settled: int, profit: int, markets: set<Condition>)

  /** `counted`: in profit and in total, which are always set together. */
  datatype Bet = Bet(agent: Agent, condition: Condition, outcome: nat, amount: int, shares: int, counted: bool)

  datatype Global = Global(amounts: Amounts, bets: nat, agents: nat, active: nat, markets: nat)

  datatype State = State(services: set<nat>, agents: map<Agent, TraderAgent>, participants: map<(Agent, Condition), Participant>,
                         daily: map<(Agent, Day), Daily>, bets: map<nat, Bet>, questions: set<Condition>,
                         resolutions: set<Condition>, markets: set<Condition>, global: Global)

  const INITIAL := State({}, map[], map[], map[], map[], {}, {}, {}, Global(ZERO, 0, 0, 0, 0))

  const ONE_DAY := 86400
  const PREDICT_AGENT_ID := 86

  function DayOf(time: nat): (d: Day)
  {
    time / ONE_DAY * ONE_DAY
  }

  function DailyOf(s: State, a: Agent, time: nat): (d: Daily)
  {
    if (a, DayOf(time)) in s.daily then s.daily[(a, DayOf(time))] else Daily(0, 0, 0, 0, 0, {})
  }

  function ParticipantOf(s: State, a: Agent, c: Condition): (p: Participant)
  {
    if (a, c) in s.participants then s.participants[(a, c)] else Participant(c in s.questions, ZERO, 0, 0, 0, false)
  }

  // --- Trades -----------------------------------------------------------------------------------

  /** A buy costs its fee on top; a sell is negative, and its fee takes at most its proceeds. */
  function BetAmount(isBuying: bool, maker: nat, taker: nat, fee: nat): (amount: int)
    ensures isBuying ==> amount >= maker
    ensures !isBuying ==> 0 <= amount + taker <= taker
  {
    if isBuying then maker + fee else (if fee < taker then fee else taker) - taker
  }

  function SharesOf(isBuying: bool, maker: int, taker: int): (shares: int)
  {
    if isBuying then taker else -maker
  }

  /** What a bet books. */
  function Traded(amount: int): (d: Amounts)
  {
    Amounts(amount, 0, 0, 0)
  }

  /** The bet's row, and its day's. */
  function WithBet(s: State, id: nat, a: Agent, c: Condition, outcome: nat, amount: int, shares: int, time: nat): (n: State)
  {
    var daily := DailyOf(s, a, time);
    s.(daily := s.daily[(a, DayOf(time)) := daily.(bets := daily.bets + 1, traded := daily.traded + amount)],
       bets := s.bets[id := Bet(a, c, outcome, amount, shares, false)])
  }

  /** The rows of the agent, the participant, the market and Global. */
  function AfterTrade(s: State, a: Agent, c: Condition, outcome: nat, amount: int, shares: int): (n: State)
    requires a in s.agents
  {
    var agent, p := s.agents[a], ParticipantOf(s, a, c);
    var newMarket := (a, c) !in s.participants && c !in s.markets;
    s.(agents := s.agents[a := TraderAgent(agent.amounts.Plus(Traded(amount)), agent.bets + 1, true)],
       participants := s.participants[(a, c) := Participant(
         p.linked, p.amounts.Plus(Traded(amount)), p.bets + 1,
         if outcome == 0 then p.shares0 + shares else p.shares0,
         if outcome == 0 then p.shares1 else p.shares1 + shares, p.settled)],
       markets := if newMarket then s.markets + {c} else s.markets,
       global := Global(s.global.amounts.Plus(Traded(amount)), s.global.bets + 1, s.global.agents,
                        s.global.active + (if agent.active then 0 else 1), s.global.markets + (if newMarket then 1 else 0)))
  }

  function AfterBet(s: State, id: nat, a: Agent, c: Condition, outcome: nat, amount: int, shares: int, time: nat): (n: State)
    requires a in s.agents
  {
    AfterTrade(WithBet(s, id, a, c, outcome, amount, shares, time), a, c, outcome, amount, shares)
  }

  // --- Resolutions ------------------------------------------------------------------------------

  function At(payouts: seq<nat>, i: nat): (p: nat)
  {
    if i < |payouts| then payouts[i] else 0
  }

  function SumOf(payouts: seq<nat>): (t: nat)
  {
    if payouts == [] then 0 else SumOf(payouts[..|payouts| - 1]) + payouts[|payouts| - 1]
  }

  /** What shares of one outcome pay when there is no single winner. */
  function Part(shares: int, payout: nat, total: nat): (e: nat)
  {
    if shares > 0 && total > 0 then shares * payout / total else 0
  }

  function ExpectedPayout(p: Participant, winning: int, payouts: seq<nat>): (e: nat)
  {
    if winning == 0 then (if p.shares0 > 0 then p.shares0 else 0)
    else if winning == 1 then (if p.shares1 > 0 then p.shares1 else 0)
    else Part(p.shares0, At(payouts, 0), SumOf(payouts)) + Part(p.shares1, At(payouts, 1), SumOf(payouts))
  }

  /** What settling books: the traded amount not settled yet, and the expected payout. */
  function Settling(p: Participant, winning: int, payouts: seq<nat>): (d: Amounts)
  {
    Amounts(0, p.amounts.traded - p.amounts.settled, ExpectedPayout(p, winning, payouts), 0)
  }

  function SettledRow(p: Participant, winning: int, payouts: seq<nat>): (n: Participant)
  {
    p.(amounts := Amounts(p.amounts.traded, p.amounts.traded, ExpectedPayout(p, winning, payouts), p.amounts.payout), settled := true)
  }

  function Counted(bets: map<nat, Bet>, a: Agent, c: Condition): (n: map<nat, Bet>)
  {
    map i | i in bets :: if bets[i].agent == a && bets[i].condition == c then bets[i].(counted := true) else bets[i]
  }

  predicate Settles(s: State, a: Agent, c: Condition)
  {
    a in s.agents && (a, c) in s.participants && !s.participants[(a, c)].settled
  }

  /** One participant of a resolved market settles, but for Global. */
  function AfterSettling(s: State, a: Agent, c: Condition, winning: int, payouts: seq<nat>, time: nat): (n: State)
    requires Settles(s, a, c)
  {
    var p, agent, daily := s.participants[(a, c)], s.agents[a], DailyOf(s, a, time);
    var d := Settling(p, winning, payouts);
    s.(participants := s.participants[(a, c) := SettledRow(p, winning, payouts)],
       agents := s.agents[a := agent.(amounts := agent.amounts.Plus(d))],
       daily := s.daily[(a, DayOf(time)) := daily.(profit := daily.profit + (d.expected - d.settled),
                                                   settled := daily.settled + d.settled, markets := daily.markets + {c})],
       bets := Counted(s.bets, a, c))
  }

  function WithGlobal(s: State, d: Amounts): (n: State)
  {
    s.(global := s.global.(amounts := s.global.amounts.Plus(d)))
  }

  function AfterSettlingOne(s: State, a: Agent, c: Condition, winning: int, payouts: seq<nat>, time: nat): (n: State)
  {
    if !Settles(s, a, c) then s
    else WithGlobal(AfterSettling(s, a, c, winning, payouts, time), Settling(s.participants[(a, c)], winning, payouts))
  }

  /** The listed participants settle one after the other, Global with each. */
  function AfterSettlingAll(s: State, listed: seq<Agent>, c: Condition, winning: int, payouts: seq<nat>, time: nat): (n: State)
  {
    if listed == [] then s
    else
      var m := AfterSettlingAll(s, listed[..|listed| - 1], c, winning, payouts, time);
      AfterSettlingOne(m, listed[|listed| - 1], c, winning, payouts, time)
  }

  /** A store's answer to the query for the participants of a question, in any order. */
  ghost predicate IsListing(s: State, c: Condition, listed: seq<Agent>)
  {
    && (forall i, j | 0 <= i < j < |listed| :: listed[i] != listed[j])
    && (forall a :: a in listed <==> (a, c) in s.participants && s.participants[(a, c)].linked)
  }

  function AfterResolution(s: State, c: Condition, winning: int, payouts: seq<nat>, time: nat, listed: seq<Agent>): (n: State)
  {
    if c !in s.questions || c in s.resolutions then s
    else AfterSettlingAll(s.(resolutions := s.resolutions + {c}), listed, c, winning, payouts, time)
  }

  // --- Redemptions ------------------------------------------------------------------------------

  function PaidOut(amount: nat): (d: Amounts)
  {
    Amounts(0, 0, 0, amount)
  }

  function AfterRedemption(s: State, a: Agent, c: Condition, amount: nat, time: nat): (n: State)
  {
    if a !in s.agents || c !in s.questions || (a, c) !in s.participants then s
    else
      var agent, p, daily := s.agents[a], s.participants[(a, c)], DailyOf(s, a, time);
      s.(agents := s.agents[a := agent.(amounts := agent.amounts.Plus(PaidOut(amount)))],
         participants := s.participants[(a, c) := p.(amounts := p.amounts.Plus(PaidOut(amount)))],
         daily := s.daily[(a, DayOf(time)) := daily.(payout := daily.payout + amount)],
         global := s.global.(amounts := s.global.amounts.Plus(PaidOut(amount))))
  }

  // --- Events -----------------------------------------------------------------------------------

  datatype Event =
    | RegisterInstance(service: nat, agentId: nat)
    | CreateMultisig(service: nat, multisig: Agent)
    | AddQuestion(condition: Condition)
    | Fill(id: nat, maker: Agent, condition: Condition, outcome: nat, isBuying: bool,
           makerAmount: nat, takerAmount: nat, fee: nat, time: nat)
    | Resolve(condition: Condition, winning: int, payouts: seq<nat>, time: nat, listed: seq<Agent>)
    | Redeem(redeemer: Agent, condition: Condition, amount: nat, time: nat)

  function AfterMultisig(s: State, service: nat, multisig: Agent): (n: State)
  {
    if service !in s.services || multisig in s.agents then s
    else s.(agents := s.agents[multisig := TraderAgent(ZERO, 0, false)], global := s.global.(agents := s.global.agents + 1))
  }

  function Step(s: State, e: Event): (n: State)
  {
    match e
    case RegisterInstance(service, agentId) =>
      if agentId != PREDICT_AGENT_ID then s else s.(services := s.services + {service})
    case CreateMultisig(service, multisig) => AfterMultisig(s, service, multisig)
    case AddQuestion(c) => s.(questions := s.questions + {c})
    case Fill(id, a, c, outcome, isBuying, maker, taker, fee, time) =>
      if a !in s.agents then s
      else AfterBet(s, id, a, c, outcome, BetAmount(isBuying, maker, taker, fee), SharesOf(isBuying, maker, taker), time)
    case Resolve(c, winning, payouts, time, listed) => AfterResolution(s, c, winning, payouts, time, listed)
    case Redeem(a, c, amount, time) => AfterRedemption(s, a, c, amount, time)
  }

  /** A log is seen once, so its bet id is new; a resolution's listing is the store's. */
  ghost predicate Possible(s: State, e: Event)
  {
    (e.Fill? ==> e.id !in s.bets) && (e.Resolve? ==> IsListing(s, e.condition, e.listed))
  }

  function Run(s: State, events: seq<Event>): (n: State)
  {
    if events == [] then s else Step(Run(s, events[..|events| - 1]), events[|events| - 1])
  }

  ghost predicate PossibleRun(s: State, events: seq<Event>)
  {
    forall i | 0 <= i < |events| :: Possible(Run(s, events[..i]), events[i])
  }
}
