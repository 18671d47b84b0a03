/** The contract's instance storage as a value, and each entry point as a function from
    the storage before the call to the storage after it and the value returned.
    The class in LotteryContract is proved to update its fields exactly as these say. */
module LotteryStore {
  import opened LotteryTypes

  /** The three kinds of entry: the round record (key LOT_STATE), the ticket counter
      (key TKT_COUNT) with the integer type it was stored as, and the ticket records
      (keys Ticket(id)). */
  datatype Store = Store(
    state: Option<LotteryState>,
    counter: Option<CounterEntry>,
    tickets: map<u64, LotteryTicket>)

  /** Storage of a contract that was never called. */
  const Empty: Store := Store(None, None, map[])

  /** What an entry point leaves behind: the storage and the returned value or the abort. */
  datatype Step<T> = Step(store: Store, result: Result<T>)

  /** The round record `get_lottery_state` substitutes when none is stored. */
  function DefaultState(self: Address): LotteryState {
    LotteryState(false, 0, 0, 0, self, 0)
  }

  /** The round record `initialize` writes. */
  function FreshRound(ticketPrice: u64, self: Address): LotteryState {
    LotteryState(true, 0, ticketPrice, 0, self, 0)
  }

  /** `get_lottery_state`: never aborts. With nothing stored it yields the closed,
      zero-valued round credited to the contract itself; otherwise exactly what is stored. */
  function CurrentState(st: Store, self: Address): (s: LotteryState)
    ensures st.state.Some? ==> s == st.state.value
    ensures st.state.None? ==>
      && !s.active && s.ticketCount == 0 && s.ticketPrice == 0 && s.potAmount == 0
      && s.lastWinner == self && s.lastWinAmount == 0
  {
    st.state.GetOr(DefaultState(self))
  }

  /** `initialize` as written: the counter is reset with an unsuffixed literal `0`, which
      nothing else types, so it is stored as an i32. The round record is as intended. */
  function InitializeAsWritten(st: Store, self: Address, ticketPrice: u64): (r: Store)
    ensures CurrentState(r, self) == LotteryState(true, 0, ticketPrice, 0, self, 0)
    ensures r.counter == Some(I32(0)) && r.tickets == st.tickets
    ensures !Consistent(r)
  {
    Store(Some(FreshRound(ticketPrice, self)), Some(I32(0)), st.tickets)
  }

  /** `initialize` with the counter reset to the u64 zero that `buy_ticket` reads back.
      Whatever was stored before, it opens an empty round at the given price, credits the
      last win to the contract itself, keeps the tickets and leaves a consistent store. */
  function Initialize(st: Store, self: Address, ticketPrice: u64): (r: Store)
    ensures CurrentState(r, self) == LotteryState(true, 0, ticketPrice, 0, self, 0)
    ensures r.counter == Some(U64(0)) && r.tickets == st.tickets
    ensures Consistent(r)
  {
    Store(Some(FreshRound(ticketPrice, self)), Some(U64(0)), st.tickets)
  }

  /** `buy_ticket`. The counter is read as a u64 (0 when absent); a value stored as an
      i32 does not convert and the read aborts. Every abort leaves the storage as it was. */
  function BuyTicket(st: Store, self: Address, buyer: Address, now: u64): (out: Step<u64>)
    ensures !CurrentState(st, self).active ==> out == Step(st, Failure(InactiveLottery))
    ensures CurrentState(st, self).active && st.counter.Some? && st.counter.value.I32? ==>
      out == Step(st, Failure(ConversionError))
    ensures out.result.Failure? ==>
      && out.store == st
      && out.result.error in {InactiveLottery, ConversionError, ArithmeticOverflow}
    ensures out.result.Success? ==>
      var id := out.result.value;
      && out.store.counter == Some(U64(id))
      && id in out.store.tickets && out.store.tickets[id] == LotteryTicket(id, buyer, now)
      && CurrentState(out.store, self).ticketCount as int == CurrentState(st, self).ticketCount as int + 1
  {
    var s := CurrentState(st, self);
    if !s.active then
      Step(st, Failure(InactiveLottery))
    else if st.counter.Some? && st.counter.value.I32? then
      Step(st, Failure(ConversionError))
    else
      var count := if st.counter.Some? then st.counter.value.count else 0;
      if count == MaxU64 || s.ticketCount == MaxU64 || s.potAmount > MaxU64 - s.ticketPrice then
        Step(st, Failure(ArithmeticOverflow))
      else
        var id := count + 1;
        var s' := s.(ticketCount := s.ticketCount + 1, potAmount := s.potAmount + s.ticketPrice);
        Step(Store(Some(s'), Some(U64(id)), st.tickets[id := LotteryTicket(id, buyer, now)]), Success(id))
  }

  /** Winner selection from the ledger clock: deterministic, and not adversary-resistant. */
  function WinningId(now: u64, ticketCount: u64): (id: u64)
    requires ticketCount > 0
    ensures 1 <= id <= ticketCount
    ensures id as int - 1 == now as int % ticketCount as int
  {
    now % ticketCount + 1
  }

  /** `draw_winner`. A closed round or one with no ticket sold aborts; every abort leaves
      the storage as it was; the counter and the tickets are never changed. */
  function DrawWinner(st: Store, self: Address, now: u64): (out: Step<Address>)
    ensures !CurrentState(st, self).active || CurrentState(st, self).ticketCount == 0 ==>
      out == Step(st, Failure(InactiveOrEmptyLottery))
    ensures out.result.Failure? ==>
      && out.store == st
      && out.result.error in {InactiveOrEmptyLottery, TicketNotFound}
    ensures out.store.counter == st.counter && out.store.tickets == st.tickets
  {
    var s := CurrentState(st, self);
    if !s.active || s.ticketCount == 0 then
      Step(st, Failure(InactiveOrEmptyLottery))
    else
      var id := WinningId(now, s.ticketCount);
      if id !in st.tickets then
        Step(st, Failure(TicketNotFound))
      else
        var winner := st.tickets[id].owner;
        var s' := s.(active := false, lastWinner := winner, lastWinAmount := s.potAmount, potAmount := 0);
        Step(st.(state := Some(s')), Success(winner))
  }

  /** The invariant every entry point keeps: the counter and the round record exist
      together; once they do, the counter equals the round's ticket count, every id in
      [1, ticketCount] holds a ticket filed under its own id, an open round's pot is
      the price of the tickets sold, and a closed round had tickets, an empty pot and
      paid out exactly what they cost. */
  predicate Consistent(st: Store) {
    match st.state
    case None => st.counter.None?
    case Some(s) =>
      && st.counter == Some(U64(s.ticketCount))
      && (forall id: u64 :: 1 <= id <= s.ticketCount ==> id in st.tickets && st.tickets[id].ticketId == id)
      && (s.active ==> s.potAmount as int == s.ticketCount as int * s.ticketPrice as int)
      && (!s.active ==>
            && s.ticketCount > 0
            && s.potAmount == 0
            && s.lastWinAmount as int == s.ticketCount as int * s.ticketPrice as int)
  }

  lemma EmptyConsistent()
    ensures Consistent(Empty)
  {
  }

  /** After `initialize` as written, the round is open but cannot sell: every purchase
      aborts on reading the i32 counter as a u64, and a draw finds no ticket sold. */
  lemma InitializeAsWrittenBlocksRound(st: Store, self: Address, ticketPrice: u64, buyer: Address, t: u64, now: u64)
    ensures var st' := InitializeAsWritten(st, self, ticketPrice);
      && BuyTicket(st', self, buyer, t) == Step(st', Failure(ConversionError))
      && DrawWinner(st', self, now) == Step(st', Failure(InactiveOrEmptyLottery))
  {
  }

  // ---------------------------------------------------------------- buy_ticket

  /** In an open round of a consistent store with room left in the u64 range, a purchase
      succeeds, returns the next id, files the buyer's ticket under it, advances the
      counter and the round's count by one, grows the pot by one price, and changes no
      other field and no other ticket. */
  lemma BuyTicketSuccess(st: Store, self: Address, buyer: Address, now: u64)
    requires Consistent(st)
    requires CurrentState(st, self).active
    requires CurrentState(st, self).ticketCount < MaxU64
    requires CurrentState(st, self).potAmount as int + CurrentState(st, self).ticketPrice as int <= MaxU64 as int
    ensures var s := CurrentState(st, self);
      var out := BuyTicket(st, self, buyer, now);
      var id := s.ticketCount + 1;
      && out.result == Success(id)
      && out.store.tickets == st.tickets[id := LotteryTicket(id, buyer, now)]
      && out.store.counter == Some(U64(id))
      && CurrentState(out.store, self) == s.(ticketCount := id, potAmount := s.potAmount + s.ticketPrice)
  {
  }

  /** `buy_ticket` keeps the invariant. */
  lemma BuyTicketKeepsConsistent(st: Store, self: Address, buyer: Address, now: u64)
    requires Consistent(st)
    ensures Consistent(BuyTicket(st, self, buyer, now).store)
  {
  }

  // ---------------------------------------------------------------- draw_winner

  /** In a consistent store the "Ticket not found" abort cannot happen: a draw from an open
      round with tickets pays the owner of ticket (now mod count) + 1, who is returned and
      recorded as last winner, together with the whole pot; the round closes with an
      empty pot, and the count, the price, the counter and every ticket stay as they were. */
  lemma DrawWinnerSuccess(st: Store, self: Address, now: u64)
    requires Consistent(st)
    requires CurrentState(st, self).active && CurrentState(st, self).ticketCount > 0
    ensures var s := CurrentState(st, self);
      var out := DrawWinner(st, self, now);
      var id := now as int % s.ticketCount as int + 1;
      && id as u64 in st.tickets
      && out.result == Success(st.tickets[id as u64].owner)
      && CurrentState(out.store, self)
         == s.(active := false, lastWinner := st.tickets[id as u64].owner, lastWinAmount := s.potAmount, potAmount := 0)
      && out.store.counter == st.counter
      && out.store.tickets == st.tickets
  {
  }

  /** `draw_winner` keeps the invariant. */
  lemma DrawWinnerKeepsConsistent(st: Store, self: Address, now: u64)
    requires Consistent(st)
    ensures Consistent(DrawWinner(st, self, now).store)
  {
  }

  /** A consistent store never answers a draw with "Ticket not found". */
  lemma DrawWinnerNeverTicketNotFound(st: Store, self: Address, now: u64)
    requires Consistent(st)
    ensures DrawWinner(st, self, now).result != Failure(TicketNotFound)
  {
  }

  /** After a successful draw the round is closed: a second draw and any purchase abort. */
  lemma DrawClosesRound(st: Store, self: Address, now: u64, buyer: Address, later: u64)
    requires DrawWinner(st, self, now).result.Success?
    ensures var st' := DrawWinner(st, self, now).store;
      && DrawWinner(st', self, later) == Step(st', Failure(InactiveOrEmptyLottery))
      && BuyTicket(st', self, buyer, later) == Step(st', Failure(InactiveLottery))
  {
  }
}
