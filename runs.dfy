/** Properties of whole call sequences, with `initialize` resetting the counter to the u64
    zero: the invariant holds in every storage the contract can reach, and a round of n
    purchases at price p hands out ids 1..n and a pot of n*p. With `initialize` as
    written, the round it opens never changes until the next `initialize`. */
module LotteryRuns {
  import opened LotteryTypes
  import opened LotteryStore

  /** One invocation of a public entry point, with the ledger time it sees. */
  datatype Call =
    | Init(ticketPrice: u64)
    | Buy(buyer: Address, now: u64)
    | Draw(now: u64)
    | Query

  /** The storage after one call (an aborted call leaves it as it was); `Init` is the
      corrected `initialize`. */
  function Apply(st: Store, self: Address, c: Call): Store {
    match c
    case Init(p) => Initialize(st, self, p)
    case Buy(b, t) => BuyTicket(st, self, b, t).store
    case Draw(t) => DrawWinner(st, self, t).store
    case Query => st
  }

  /** The storage after a sequence of calls, first call first. */
  function Run(st: Store, self: Address, calls: seq<Call>): Store
    decreases |calls|
  {
    if calls == [] then st else Run(Apply(st, self, calls[0]), self, calls[1..])
  }

  lemma {:induction false} ApplyKeepsConsistent(st: Store, self: Address, c: Call)
    requires Consistent(st)
    ensures Consistent(Apply(st, self, c))
  {
    match c
    case Init(p) =>
    case Buy(b, t) => BuyTicketKeepsConsistent(st, self, b, t);
    case Draw(t) => DrawWinnerKeepsConsistent(st, self, t);
    case Query =>
  }

  /** Every call sequence keeps the invariant. */
  lemma {:induction false} RunKeepsConsistent(st: Store, self: Address, calls: seq<Call>)
    requires Consistent(st)
    ensures Consistent(Run(st, self, calls))
    decreases |calls|
  {
    if calls != [] {
      ApplyKeepsConsistent(st, self, calls[0]);
      RunKeepsConsistent(Apply(st, self, calls[0]), self, calls[1..]);
    }
  }

  /** Whatever the contract was called with before, a draw never aborts with
      "Ticket not found", and the counter agrees with the round's ticket count. */
  lemma ReachableNeverTicketNotFound(self: Address, calls: seq<Call>, now: u64)
    ensures DrawWinner(Run(Empty, self, calls), self, now).result != Failure(TicketNotFound)
    ensures var st := Run(Empty, self, calls);
      st.state.Some? ==> st.counter == Some(U64(st.state.value.ticketCount))
  {
    EmptyConsistent();
    RunKeepsConsistent(Empty, self, calls);
    DrawWinnerNeverTicketNotFound(Run(Empty, self, calls), self, now);
  }

  /** From the storage `initialize` as written leaves, no sequence of purchases, draws
      and lookups changes anything: the round stays open with no ticket sold and an empty
      pot until the next `initialize`. */
  lemma {:induction false} AsWrittenRoundIsStuck(st: Store, self: Address, ticketPrice: u64, calls: seq<Call>)
    requires forall i :: 0 <= i < |calls| ==> !calls[i].Init?
    ensures Run(InitializeAsWritten(st, self, ticketPrice), self, calls) == InitializeAsWritten(st, self, ticketPrice)
    decreases |calls|
  {
    if calls != [] {
      var st0 := InitializeAsWritten(st, self, ticketPrice);
      assert Apply(st0, self, calls[0]) == st0;
      AsWrittenRoundIsStuck(st, self, ticketPrice, calls[1..]);
    }
  }

  /** A buyer and the ledger time of one purchase. */
  datatype Purchase = Purchase(buyer: Address, now: u64)

  /** The storage after a sequence of purchases, and what each `buy_ticket` returned. */
  datatype Purchases = Purchases(store: Store, results: seq<Result<u64>>)

  /** `buy_ticket` for each purchase in turn. */
  function BuyAll(st: Store, self: Address, ps: seq<Purchase>): Purchases
    decreases |ps|
  {
    if ps == [] then Purchases(st, [])
    else
      var out := BuyTicket(st, self, ps[0].buyer, ps[0].now);
      var rest := BuyAll(out.store, self, ps[1..]);
      Purchases(rest.store, [out.result] + rest.results)
  }

  /** Room for one more ticket: k tickets at price p fit when k + n do, n > 0. */
  lemma PotRoom(k: nat, n: nat, p: nat)
    requires 0 < n
    ensures k * p + p == (k + 1) * p <= (k + n) * p
  {
  }

  /** The preconditions shared by the lemmas about purchases in an open round: a consistent
      store, an open round, and k + n tickets and their price within the u64 range. */
  predicate RoomFor(st: Store, self: Address, n: nat) {
    var s := CurrentState(st, self);
    && Consistent(st)
    && s.active
    && s.ticketCount as int + n <= MaxU64 as int
    && (s.ticketCount as int + n) * s.ticketPrice as int <= MaxU64 as int
  }

  /** One purchase in an open round with room for n > 0 leaves room for n - 1 more. */
  lemma {:induction false} BuyOneLeavesRoom(st: Store, self: Address, p: Purchase, n: nat)
    requires 0 < n && RoomFor(st, self, n)
    ensures var s := CurrentState(st, self);
      var out := BuyTicket(st, self, p.buyer, p.now);
      && RoomFor(out.store, self, n - 1)
      && out.result == Success(s.ticketCount + 1)
      && out.store.tickets == st.tickets[s.ticketCount + 1 := LotteryTicket(s.ticketCount + 1, p.buyer, p.now)]
      && CurrentState(out.store, self) == s.(ticketCount := s.ticketCount + 1, potAmount := s.potAmount + s.ticketPrice)
  {
    var s := CurrentState(st, self);
    PotRoom(s.ticketCount as int, n, s.ticketPrice as int);
    BuyTicketSuccess(st, self, p.buyer, p.now);
    BuyTicketKeepsConsistent(st, self, p.buyer, p.now);
  }

  /** In an open round with k tickets sold, n purchases that stay within the u64 range keep
      the invariant and leave the round open with k + n tickets, a pot of (k + n) times the
      price, and its price, last winner and last win as they were. */
  lemma {:induction false} BuyAllRound(st: Store, self: Address, ps: seq<Purchase>)
    requires RoomFor(st, self, |ps|)
    ensures Consistent(BuyAll(st, self, ps).store)
    ensures var s := CurrentState(st, self);
      var s' := CurrentState(BuyAll(st, self, ps).store, self);
      && s'.active
      && s'.ticketCount as int == s.ticketCount as int + |ps|
      && s'.potAmount as int == (s.ticketCount as int + |ps|) * s.ticketPrice as int
      && s'.ticketPrice == s.ticketPrice
      && s'.lastWinner == s.lastWinner
      && s'.lastWinAmount == s.lastWinAmount
    decreases |ps|
  {
    if ps != [] {
      BuyOneLeavesRoom(st, self, ps[0], |ps|);
      BuyAllRound(BuyTicket(st, self, ps[0].buyer, ps[0].now).store, self, ps[1..]);
    }
  }

  /** The i-th of n purchases in an open round with k tickets sold returns id k + i + 1, and
      the ticket filed under that id is the i-th buyer's with its time. */
  lemma {:induction false} BuyAllIds(st: Store, self: Address, ps: seq<Purchase>, i: nat)
    requires RoomFor(st, self, |ps|)
    requires i < |ps|
    ensures var k := CurrentState(st, self).ticketCount as int;
      var round := BuyAll(st, self, ps);
      && |round.results| == |ps|
      && round.results[i] == Success((k + i + 1) as u64)
      && (k + i + 1) as u64 in round.store.tickets
      && round.store.tickets[(k + i + 1) as u64] == LotteryTicket((k + i + 1) as u64, ps[i].buyer, ps[i].now)
    decreases |ps|
  {
    var k := CurrentState(st, self).ticketCount as int;
    var out := BuyTicket(st, self, ps[0].buyer, ps[0].now);
    BuyOneLeavesRoom(st, self, ps[0], |ps|);
    if i == 0 {
      BuyAllKeepsTickets(out.store, self, ps[1..]);
    } else {
      BuyAllIds(out.store, self, ps[1..], i - 1);
      assert ps[1..][i - 1] == ps[i];
    }
  }

  /** Purchases in an open round with k tickets sold never touch a ticket id up to k. */
  lemma {:induction false} BuyAllKeepsTickets(st: Store, self: Address, ps: seq<Purchase>)
    requires RoomFor(st, self, |ps|)
    ensures |BuyAll(st, self, ps).results| == |ps|
    ensures var k := CurrentState(st, self).ticketCount;
      var tickets := BuyAll(st, self, ps).store.tickets;
      forall id :: id in st.tickets && id <= k ==> id in tickets && tickets[id] == st.tickets[id]
    decreases |ps|
  {
    if ps != [] {
      BuyOneLeavesRoom(st, self, ps[0], |ps|);
      BuyAllKeepsTickets(BuyTicket(st, self, ps[0].buyer, ps[0].now).store, self, ps[1..]);
    }
  }

  /** After the corrected `initialize(p)` and n purchases, whatever was stored before: the returned ids
      are exactly 1..n in order (so no id repeats), ticket i belongs to the i-th buyer,
      the round is open with n tickets and a pot of n*p. */
  lemma RoundAfterInitialize(st: Store, self: Address, ticketPrice: u64, ps: seq<Purchase>)
    requires |ps| * ticketPrice as int <= MaxU64 as int
    requires |ps| <= MaxU64 as int
    ensures var round := BuyAll(Initialize(st, self, ticketPrice), self, ps);
      var st', rs := round.store, round.results;
      && |rs| == |ps|
      && (forall i :: 0 <= i < |rs| ==> rs[i].Success? && rs[i].value as int == i + 1)
      && (forall i :: 0 <= i < |ps| ==> (i + 1) as u64 in st'.tickets && st'.tickets[(i + 1) as u64].owner == ps[i].buyer)
      && CurrentState(st', self)
         == LotteryState(true, |ps| as u64, ticketPrice, (|ps| * ticketPrice as int) as u64, self, 0)
  {
    var st0 := Initialize(st, self, ticketPrice);
    BuyAllRound(st0, self, ps);
    BuyAllKeepsTickets(st0, self, ps);
    forall i | 0 <= i < |ps|
      ensures BuyAll(st0, self, ps).results[i] == Success((i + 1) as u64)
      ensures (i + 1) as u64 in BuyAll(st0, self, ps).store.tickets
      ensures BuyAll(st0, self, ps).store.tickets[(i + 1) as u64].owner == ps[i].buyer
    {
      BuyAllIds(st0, self, ps, i);
    }
  }

  /** A complete round: after the corrected `initialize(p)`, n > 0 purchases and a draw at time t, the
      winner is the buyer of ticket (t mod n) + 1, who is credited with the pot n*p, and
      the round is closed with an empty pot. */
  lemma RoundWinner(st: Store, self: Address, ticketPrice: u64, ps: seq<Purchase>, now: u64)
    requires 0 < |ps| <= MaxU64 as int
    requires |ps| * ticketPrice as int <= MaxU64 as int
    ensures var st' := BuyAll(Initialize(st, self, ticketPrice), self, ps).store;
      var out := DrawWinner(st', self, now);
      var winner := ps[now as int % |ps|].buyer;
      && out.result == Success(winner)
      && CurrentState(out.store, self)
         == LotteryState(false, |ps| as u64, ticketPrice, 0, winner, (|ps| * ticketPrice as int) as u64)
  {
    var st0 := Initialize(st, self, ticketPrice);
    var st' := BuyAll(st0, self, ps).store;
    BuyAllRound(st0, self, ps);
    var i := now as int % |ps|;
    BuyAllIds(st0, self, ps, i);
    DrawWinnerSuccess(st', self, now);
  }

  /** The corrected `initialize(100)`, `buy_ticket(a)`, `buy_ticket(b)`, then a draw at time 7: ticket
      (7 mod 2) + 1 = 2 wins, so b is paid the pot of 200. */
  lemma TwoTicketScenario(st: Store, self: Address, a: Address, b: Address, t1: u64, t2: u64)
    ensures var round := BuyAll(Initialize(st, self, 100), self, [Purchase(a, t1), Purchase(b, t2)]);
      && round.results == [Success(1), Success(2)]
      && CurrentState(round.store, self) == LotteryState(true, 2, 100, 200, self, 0)
      && DrawWinner(round.store, self, 7).result == Success(b)
      && CurrentState(DrawWinner(round.store, self, 7).store, self) == LotteryState(false, 2, 100, 0, b, 200)
  {
    var ps := [Purchase(a, t1), Purchase(b, t2)];
    RoundAfterInitialize(st, self, 100, ps);
    RoundWinner(st, self, 100, ps, 7);
    var round := BuyAll(Initialize(st, self, 100), self, ps);
    assert round.results[0].value as int == 1 && round.results[1].value as int == 2;
  }
}
