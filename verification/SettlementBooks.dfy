/**
 The four books a prediction market's money is entered in - per participant, per agent, per agent and
 day, and global - and what keeps them in balance.
 */
module SettlementBooks {
  import opened Sums

  type Agent = nat
  type Condition = nat
  type Day = nat

  /** Amounts traded, settled of those, expected as payout and paid out. */
  datatype Amounts = Amounts(traded: int, settled: int, expected: int, payout: int)
  {
    function Plus(o: Amounts): (r: Amounts)
    {
      Amounts(traded + o.traded, settled + o.settled, expected + o.expected, payout + o.payout)
    }
  }

  const ZERO := Amounts(0, 0, 0, 0)

  datatype Books = Books(participants: map<(Agent, Condition), Amounts>, agents: map<Agent, Amounts>,
                         daily: map<(Agent, Day), Amounts>, global: Amounts)

  function Entry<K>(m: map<K, Amounts>, k: K): (a: Amounts)
  {
    if k in m then m[k] else ZERO
  }

  ghost function Total<K(!new)>(m: map<K, Amounts>): (t: Amounts)
    decreases |m|
  {
    if m == map[] then ZERO
    else
      var k :| k in m;
      Smaller(m, k);
      m[k].Plus(Total(m - {k}))
  }

  lemma {:induction false} TotalPick<K(!new)>(m: map<K, Amounts>, k: K)
    requires k in m
    ensures Total(m) == m[k].Plus(Total(m - {k}))
    decreases |m|
  {
    var j :| j in m && Total(m) == m[j].Plus(Total(m - {j}));
    if j != k {
      Smaller(m, j);
      TotalPick(m - {j}, k);
      Smaller(m, k);
      TotalPick(m - {k}, j);
      assert (m - {j}) - {k} == (m - {k}) - {j};
      PlusSwap(m[j], m[k], Total((m - {j}) - {k}));
    }
  }

  lemma TotalAdd<K(!new)>(m: map<K, Amounts>, k: K, d: Amounts)
    ensures Total(m[k := Entry(m, k).Plus(d)]) == Total(m).Plus(d)
  {
    var n := m[k := Entry(m, k).Plus(d)];
    TotalPick(n, k);
    if k in m {
      TotalPick(m, k);
      assert n - {k} == m - {k};
    } else {
      assert n - {k} == m;
    }
  }

  lemma PlusSwap(a: Amounts, b: Amounts, c: Amounts)
    ensures a.Plus(b.Plus(c)) == b.Plus(a.Plus(c))
  {
  }

  lemma PlusZero(a: Amounts)
    ensures a.Plus(ZERO) == a && ZERO.Plus(a) == a
  {
  }

  /** The sum of the differences is the difference of the totals. */
  lemma {:induction false} TotalProfit<K(!new)>(m: map<K, Amounts>, profit: map<K, int>)
    requires profit.Keys == m.Keys && forall k | k in m :: profit[k] == m[k].expected - m[k].settled
    ensures Sum(profit) == Total(m).expected - Total(m).settled
    decreases |m|
  {
    if m == map[] {
      assert profit == map[];
    } else {
      var k :| k in m;
      TotalPick(m, k);
      SumPick(profit, k);
      Smaller(m, k);
      TotalProfit(m - {k}, profit - {k});
    }
  }

  /** The entries of one agent in a book keyed by agent and something else. */
  function Own(m: map<(Agent, nat), Amounts>, a: Agent): (o: map<(Agent, nat), Amounts>)
  {
    map k | k in m && k.0 == a :: m[k]
  }

  /** Global is the total of each book, and every agent's row the total of that agent's entries in the others. */
  ghost predicate Balanced(b: Books)
  {
    && Total(b.agents) == b.global && Total(b.participants) == b.global && Total(b.daily) == b.global
    && (forall k | k in b.participants :: k.0 in b.agents)
    && (forall k | k in b.daily :: k.0 in b.agents)
    && forall a | a in b.agents :: AgentBalanced(b, a)
  }

  ghost predicate AgentBalanced(b: Books, a: Agent)
    requires a in b.agents
  {
    Total(Own(b.participants, a)) == b.agents[a] && Total(Own(b.daily, a)) == b.agents[a]
  }

  /** The same amounts entered in all four books. */
  function Post(b: Books, a: Agent, c: Condition, day: Day, d: Amounts): (n: Books)
  {
    Books(b.participants[(a, c) := Entry(b.participants, (a, c)).Plus(d)], b.agents[a := Entry(b.agents, a).Plus(d)],
          b.daily[(a, day) := Entry(b.daily, (a, day)).Plus(d)], b.global.Plus(d))
  }

  lemma OwnAdd(m: map<(Agent, nat), Amounts>, k: (Agent, nat), d: Amounts, a: Agent)
    ensures Total(Own(m[k := Entry(m, k).Plus(d)], a)) == if k.0 == a then Total(Own(m, a)).Plus(d) else Total(Own(m, a))
  {
    var n := m[k := Entry(m, k).Plus(d)];
    if k.0 == a {
      TotalAdd(Own(m, a), k, d);
      assert Own(n, a) == Own(m, a)[k := Entry(Own(m, a), k).Plus(d)];
    } else {
      assert Own(n, a) == Own(m, a);
    }
  }

  lemma PostBalancesAgent(b: Books, a: Agent, c: Condition, day: Day, d: Amounts, o: Agent)
    requires Balanced(b) && a in b.agents && o in b.agents
    ensures AgentBalanced(Post(b, a, c, day, d), o)
  {
    assert AgentBalanced(b, o);
    OwnAdd(b.participants, (a, c), d, o);
    OwnAdd(b.daily, (a, day), d, o);
  }

  lemma PostBalances(b: Books, a: Agent, c: Condition, day: Day, d: Amounts)
    requires Balanced(b) && a in b.agents
    ensures Balanced(Post(b, a, c, day, d))
  {
    TotalAdd(b.participants, (a, c), d);
    TotalAdd(b.agents, a, d);
    TotalAdd(b.daily, (a, day), d);
    forall o | o in Post(b, a, c, day, d).agents
      ensures AgentBalanced(Post(b, a, c, day, d), o)
    {
      PostBalancesAgent(b, a, c, day, d, o);
    }
  }

  /** A new agent starts with nothing. */
  function Open(b: Books, a: Agent): (n: Books)
  {
    Books(b.participants, b.agents[a := ZERO], b.daily, b.global)
  }

  lemma OpenBalances(b: Books, a: Agent)
    requires Balanced(b) && a !in b.agents
    ensures Balanced(Open(b, a))
  {
    NewAgentTotal(b.agents, a);
    forall o | o in Open(b, a).agents
      ensures AgentBalanced(Open(b, a), o)
    {
      NewAgentOwnsNothing(b, a, o);
    }
  }

  lemma NewAgentTotal(agents: map<Agent, Amounts>, a: Agent)
    requires a !in agents
    ensures Total(agents[a := ZERO]) == Total(agents)
  {
    var n := agents[a := ZERO];
    TotalPick(n, a);
    assert n - {a} == agents;
    PlusZero(Total(agents));
  }

  lemma NewAgentOwnsNothing(b: Books, a: Agent, o: Agent)
    requires Balanced(b) && a !in b.agents && o in Open(b, a).agents
    ensures AgentBalanced(Open(b, a), o)
  {
    if o == a {
      assert Own(b.participants, a) == map[] && Own(b.daily, a) == map[];
    } else {
      assert AgentBalanced(b, o);
    }
  }

  lemma EmptyBalances()
    ensures Balanced(Books(map[], map[], map[], ZERO))
  {
  }
}
