/** The OLAS transfer handler of squids/tokenomics/src/handlers.ts. */
module TokenSupply {
  import opened Wrappers
  import opened Sums

  type Address = nat

  const ZERO_ADDRESS: Address := 0

  /** The token's row and its holders'. */
  datatype State = State(balance: int, holderCount: int, holders: map<Address, int>)

  const INITIAL := State(0, 0, map[])

  function BalanceOf(holders: map<Address, int>, a: Address): (b: int)
  {
    if a in holders then holders[a] else 0
  }

  function Minted(s: State, from: Address, to: Address, amount: nat): (n: State)
  {
    if from == ZERO_ADDRESS then s.(balance := s.balance + amount)
    else if to == ZERO_ADDRESS then s.(balance := s.balance - amount)
    else s
  }

  function Sent(s: State, from: Address, amount: nat): (o: Outcome<State>)
  {
    if from == ZERO_ADDRESS then Done(s)
    else
      var was := BalanceOf(s.holders, from);
      if was < amount then Thrown
      else Done(s.(holders := s.holders[from := was - amount],
                   holderCount := if was > 0 && was == amount then s.holderCount - 1 else s.holderCount))
  }

  function Received(s: State, to: Address, amount: nat): (n: State)
  {
    if to == ZERO_ADDRESS then s
    else
      var was := BalanceOf(s.holders, to);
      s.(holders := s.holders[to := was + amount],
         holderCount := if was == 0 && was + amount > 0 then s.holderCount + 1 else s.holderCount)
  }

  function Transfer(s: State, from: Address, to: Address, amount: nat): (o: Outcome<State>)
  {
    match Sent(Minted(s, from, to, amount), from, amount)
    case Thrown => Thrown
    case Done(m) => Done(Received(m, to, amount))
  }

  // --- What completed transfers keep ------------------------------------------------------------

  function Positive(holders: map<Address, int>): (p: set<Address>)
  {
    set a | a in holders && holders[a] > 0
  }

  /** Balances add up to the token's but for `owed`, which is on its way from the sender to the receiver. */
  ghost predicate Supply(s: State, owed: int)
  {
    && s.balance == Sum(s.holders) + owed
    && s.holderCount == |Positive(s.holders)|
    && ZERO_ADDRESS !in s.holders
    && forall a | a in s.holders :: s.holders[a] >= 0
  }

  ghost predicate Valid(s: State)
  {
    Supply(s, 0)
  }

  lemma PositiveUpdate(holders: map<Address, int>, a: Address, b: int)
    ensures var was, n := Positive(holders), Positive(holders[a := b]);
            |n| == |was| - (if a in was then 1 else 0) + (if b > 0 then 1 else 0)
  {
    var was, n := Positive(holders), Positive(holders[a := b]);
    assert was - {a} == n - {a};
    assert |was| == |was - {a}| + (if a in was then 1 else 0);
    assert |n| == |n - {a}| + (if b > 0 then 1 else 0);
  }

  lemma SentKeepsSupply(s: State, from: Address, amount: nat, owed: int)
    requires Supply(s, owed) && Sent(s, from, amount).Done?
    ensures Supply(Sent(s, from, amount).state, if from == ZERO_ADDRESS then owed else owed + amount)
  {
    if from != ZERO_ADDRESS {
      var left := BalanceOf(s.holders, from) - amount;
      SumUpdate(s.holders, from, left);
      PositiveUpdate(s.holders, from, left);
    }
  }

  lemma ReceivedKeepsSupply(s: State, to: Address, amount: nat, owed: int)
    requires Supply(s, owed)
    ensures Supply(Received(s, to, amount), if to == ZERO_ADDRESS then owed else owed - amount)
  {
    if to != ZERO_ADDRESS {
      var now := BalanceOf(s.holders, to) + amount;
      SumUpdate(s.holders, to, now);
      PositiveUpdate(s.holders, to, now);
    }
  }

  /** What a transfer adds to the token's balance and to nobody's. */
  function Lost(from: Address, to: Address, amount: nat): (t: nat)
  {
    if from == ZERO_ADDRESS && to == ZERO_ADDRESS then amount else 0
  }

  lemma TransferKeepsSupply(s: State, from: Address, to: Address, amount: nat, owed: int)
    requires Supply(s, owed) && Transfer(s, from, to, amount).Done?
    ensures Supply(Transfer(s, from, to, amount).state, owed + Lost(from, to, amount))
  {
    var more := owed + if from == ZERO_ADDRESS then amount else if to == ZERO_ADDRESS then -(amount as int) else 0;
    var m := Minted(s, from, to, amount);
    assert Supply(m, more);
    SentKeepsSupply(m, from, amount, more);
    ReceivedKeepsSupply(Sent(m, from, amount).state, to, amount, if from == ZERO_ADDRESS then more else more + amount);
  }

  /**
   A completed transfer keeps the supply exactly when it is not a mint to nobody: with both ends the zero
   address the token's balance grows and no holder's does.
   */
  lemma TransferKeepsValidIff(s: State, from: Address, to: Address, amount: nat)
    requires Valid(s) && Transfer(s, from, to, amount).Done?
    ensures Valid(Transfer(s, from, to, amount).state) <==> !(from == ZERO_ADDRESS && to == ZERO_ADDRESS && amount > 0)
  {
    TransferKeepsSupply(s, from, to, amount, 0);
  }

  /** Such a mint completes from any rows that add up - the first rows, none at all, do - and they no longer do. */
  lemma MintToNobody(s: State, amount: nat)
    requires (Valid(s) || s == INITIAL) && amount > 0
    ensures Valid(s) && Transfer(s, ZERO_ADDRESS, ZERO_ADDRESS, amount).Done?
    ensures !Valid(Transfer(s, ZERO_ADDRESS, ZERO_ADDRESS, amount).state)
  {
    assert s.holders == map[] ==> Positive(s.holders) == {};
    TransferKeepsValidIff(s, ZERO_ADDRESS, ZERO_ADDRESS, amount);
  }

  /** A transfer throws exactly when its sender, not the zero address, holds less than it sends. */
  lemma TransferThrowsIff(s: State, from: Address, to: Address, amount: nat)
    ensures Transfer(s, from, to, amount).Thrown? <==> from != ZERO_ADDRESS && BalanceOf(s.holders, from) < amount
  {
  }

  /** A transfer to oneself changes no balance and no count. */
  lemma SelfTransfer(s: State, a: Address, amount: nat)
    requires a in s.holders && a != ZERO_ADDRESS && s.holders[a] >= amount
    ensures Transfer(s, a, a, amount) == Done(s)
  {
    assert s.holders[a := s.holders[a] - amount][a := s.holders[a]] == s.holders;
  }

  datatype Event = Event(from: Address, to: Address, amount: nat)

  function Run(s: State, events: seq<Event>): (o: Outcome<State>)
  {
    if events == [] then Done(s)
    else
      match Run(s, events[..|events| - 1])
      case Thrown => Thrown
      case Done(m) => var e := events[|events| - 1]; Transfer(m, e.from, e.to, e.amount)
  }

  function LostBy(events: seq<Event>): (t: nat)
  {
    if events == [] then 0
    else var e := events[|events| - 1]; LostBy(events[..|events| - 1]) + Lost(e.from, e.to, e.amount)
  }

  lemma {:induction false} LostByNone(events: seq<Event>)
    ensures LostBy(events) == 0 <==> forall e | e in events :: !(e.from == ZERO_ADDRESS && e.to == ZERO_ADDRESS && e.amount > 0)
  {
    if events != [] {
      var init, last := events[..|events| - 1], events[|events| - 1];
      LostByNone(init);
      assert events == init + [last];
    }
  }

  lemma {:induction false} RunSupply(events: seq<Event>)
    ensures Run(INITIAL, events).Done? ==> Supply(Run(INITIAL, events).state, LostBy(events))
  {
    if events == [] {
      assert Positive(map[]) == {};
    } else {
      var init, e := events[..|events| - 1], events[|events| - 1];
      RunSupply(init);
      if Run(INITIAL, events).Done? {
        TransferKeepsSupply(Run(INITIAL, init).state, e.from, e.to, e.amount, LostBy(init));
      }
    }
  }

  /** After any completed run the holders' balances add up to the token's exactly when nothing was minted to nobody. */
  lemma RunIsValidIff(events: seq<Event>)
    requires Run(INITIAL, events).Done?
    ensures Valid(Run(INITIAL, events).state)
            <==> forall e | e in events :: !(e.from == ZERO_ADDRESS && e.to == ZERO_ADDRESS && e.amount > 0)
  {
    RunSupply(events);
    LostByNone(events);
  }

  // --- What every holder has --------------------------------------------------------------------

  /** What an event pays an address less what it takes from it. */
  function PaidTo(e: Event, a: Address): (d: int)
  {
    (if e.to == a then e.amount else 0) - (if e.from == a then e.amount else 0)
  }

  /** What an event mints less what it burns. */
  function Issued(e: Event): (d: int)
  {
    if e.from == ZERO_ADDRESS then e.amount else if e.to == ZERO_ADDRESS then -(e.amount as int) else 0
  }

  /** The sum of what the events pay an address. */
  function Ledger(events: seq<Event>, a: Address): (b: int)
  {
    if events == [] then 0 else Ledger(events[..|events| - 1], a) + PaidTo(events[|events| - 1], a)
  }

  function Supplied(events: seq<Event>): (b: int)
  {
    if events == [] then 0 else Supplied(events[..|events| - 1]) + Issued(events[|events| - 1])
  }

  /** A completed transfer moves its amount from the one end to the other, and what nobody else holds. */
  lemma TransferMoves(s: State, e: Event, a: Address)
    requires Transfer(s, e.from, e.to, e.amount).Done? && a != ZERO_ADDRESS
    ensures var n := Transfer(s, e.from, e.to, e.amount).state;
            BalanceOf(n.holders, a) == BalanceOf(s.holders, a) + PaidTo(e, a) && n.balance == s.balance + Issued(e)
  {
  }

  /** After any completed run every holder has what the events paid it, and the token what they issued. */
  lemma {:induction false} BalanceIsLedger(events: seq<Event>, a: Address)
    requires Run(INITIAL, events).Done? && a != ZERO_ADDRESS
    ensures var s := Run(INITIAL, events).state;
            BalanceOf(s.holders, a) == Ledger(events, a) && s.balance == Supplied(events)
  {
    if events != [] {
      var init, e := events[..|events| - 1], events[|events| - 1];
      BalanceIsLedger(init, a);
      TransferMoves(Run(INITIAL, init).state, e, a);
    }
  }

  /** No event takes from a holder more than the events before it have paid it. */
  ghost predicate Covered(events: seq<Event>)
  {
    forall i | 0 <= i < |events| && events[i].from != ZERO_ADDRESS :: events[i].amount <= Ledger(events[..i], events[i].from)
  }

  lemma CoveredLast(events: seq<Event>)
    requires events != []
    ensures var init, e := events[..|events| - 1], events[|events| - 1];
            Covered(events) <==> Covered(init) && (e.from != ZERO_ADDRESS ==> e.amount <= Ledger(init, e.from))
  {
    var init := events[..|events| - 1];
    forall i | 0 <= i < |init|
      ensures init[..i] == events[..i]
    {
    }
    if Covered(events) {
      forall i | 0 <= i < |init| && init[i].from != ZERO_ADDRESS
        ensures init[i].amount <= Ledger(init[..i], init[i].from)
      {
        assert events[i] == init[i] && init[..i] == events[..i];
      }
    }
  }

  /** A run completes exactly when every transfer is covered. */
  lemma {:induction false} CompletesIff(events: seq<Event>)
    ensures Run(INITIAL, events).Done? <==> Covered(events)
  {
    if events != [] {
      var init, e := events[..|events| - 1], events[|events| - 1];
      CompletesIff(init);
      CoveredLast(events);
      if Run(INITIAL, init).Done? && e.from != ZERO_ADDRESS {
        BalanceIsLedger(init, e.from);
      }
      if Run(INITIAL, init).Done? {
        TransferThrowsIff(Run(INITIAL, init).state, e.from, e.to, e.amount);
      }
    }
  }

  // --- The handler ------------------------------------------------------------------------------

  class Squid {
    var balance: int
    var holderCount: int
    var holders: map<Address, int>

    constructor ()
      ensures View() == INITIAL
    {
      balance, holderCount, holders := 0, 0, map[];
    }

    function View(): (s: State)
      reads this
    {
      State(balance, holderCount, holders)
    }

    /** False when it throws. */
    method HandleTransfer(from: Address, to: Address, amount: nat) returns (ok: bool)
      modifies this
      ensures ok == Transfer(old(View()), from, to, amount).Done?
      ensures ok ==> View() == Transfer(old(View()), from, to, amount).state
      ensures ok && Valid(old(View())) && Lost(from, to, amount) == 0 ==> Valid(View())
    {
      ghost var s := View();
      if Valid(s) && Transfer(s, from, to, amount).Done? {
        TransferKeepsSupply(s, from, to, amount, 0);
      }
      if from == ZERO_ADDRESS {
        balance := balance + amount;
      } else if to == ZERO_ADDRESS {
        balance := balance - amount;
      }
      if from != ZERO_ADDRESS {
        var was := BalanceOf(holders, from);
        var left := was - amount;
        if left < 0 {
          return false;
        }
        holders := holders[from := left];
        if was > 0 && left == 0 {
          holderCount := holderCount - 1;
        }
      }
      // The receiver's row is read after the sender's is written: a transfer to oneself finds it.
      if to != ZERO_ADDRESS {
        var was := BalanceOf(holders, to);
        holders := holders[to := was + amount];
        if was == 0 && was + amount > 0 {
          holderCount := holderCount + 1;
        }
      }
      return true;
    }
  }
}
