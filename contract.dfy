/** The contract itself: its instance storage as three fields that the entry points
    overwrite, each entry point proved to leave the storage and return the value the
    transition function of LotteryStore prescribes, and to keep the invariant. */
module LotteryContract {
  import opened LotteryTypes
  import opened LotteryStore

  class CryptoLottery {
    /** The contract's own address, what the host's current_contract_address reports. */
    const contractAddress: Address
    /** Entry LOT_STATE. */
    var state: Option<LotteryState>
    /** Entry TKT_COUNT, with the integer type it was stored as. */
    var counter: Option<CounterEntry>
    /** Entries Ticket(id). */
    var tickets: map<u64, LotteryTicket>

    /** The storage as a value. */
    function Snapshot(): Store
      reads this
    {
      Store(state, counter, tickets)
    }

    predicate Valid()
      reads this
    {
      Consistent(Snapshot())
    }

    /** A deployed contract with empty storage. */
    constructor (contractAddress: Address)
      ensures this.contractAddress == contractAddress
      ensures Snapshot() == Empty
      ensures Valid()
    {
      this.contractAddress := contractAddress;
      state := None;
      counter := None;
      tickets := map[];
    }

    /** `get_lottery_state`: never aborts; the stored round, or a closed zero-valued round
        whose last winner is the contract itself. */
    function GetLotteryState(): (r: LotteryState)
      reads this
      ensures state.Some? ==> r == state.value
      ensures state.None? ==>
        && !r.active && r.ticketCount == 0 && r.ticketPrice == 0 && r.potAmount == 0
        && r.lastWinner == contractAddress && r.lastWinAmount == 0
      ensures r == CurrentState(Snapshot(), contractAddress)
    {
      match state
      case Some(s) => s
      case None => LotteryState(false, 0, 0, 0, contractAddress, 0)
    }

    /** `initialize`: callable at any time; opens a fresh round at the given price and
        resets the counter to the u64 zero that `buy_ticket` reads back. */
    method Initialize(ticketPrice: u64) returns (r: LotteryState)
      modifies this
      ensures r == LotteryState(true, 0, ticketPrice, 0, contractAddress, 0)
      ensures state == Some(r) && counter == Some(U64(0)) && tickets == old(tickets)
      ensures Snapshot() == LotteryStore.Initialize(old(Snapshot()), contractAddress, ticketPrice)
      ensures GetLotteryState() == r
      ensures Valid()
    {
      r := LotteryState(
        active := true,
        ticketCount := 0,
        ticketPrice := ticketPrice,
        potAmount := 0,
        lastWinner := contractAddress,
        lastWinAmount := 0);
      state := Some(r);
      counter := Some(U64(0));
    }

    /** `buy_ticket` at ledger time `now`. */
    method BuyTicket(buyer: Address, now: u64) returns (r: Result<u64>)
      modifies this
      ensures Step(Snapshot(), r) == LotteryStore.BuyTicket(old(Snapshot()), contractAddress, buyer, now)
      ensures r.Failure? ==> Snapshot() == old(Snapshot())
      ensures !old(GetLotteryState()).active ==> r == Failure(InactiveLottery)
      ensures old(GetLotteryState()).active && old(counter).Some? && old(counter).value.I32? ==>
        r == Failure(ConversionError)
      ensures r.Success? ==>
        && counter == Some(U64(r.value))
        && r.value as int == (if old(counter).Some? then old(counter).value.count else 0) as int + 1
        && tickets == old(tickets)[r.value := LotteryTicket(r.value, buyer, now)]
        && GetLotteryState() == old(GetLotteryState()).(
             ticketCount := old(GetLotteryState()).ticketCount + 1,
             potAmount := old(GetLotteryState()).potAmount + old(GetLotteryState()).ticketPrice)
      ensures old(Valid()) ==> Valid()
    {
      if Valid() {
        BuyTicketKeepsConsistent(Snapshot(), contractAddress, buyer, now);
      }
      var s := GetLotteryState();
      if !s.active {
        return Failure(InactiveLottery);
      }
      var ticketCount: u64 := 0;
      if counter.Some? {
        match counter.value
        case I32(_) =>
          return Failure(ConversionError);
        case U64(n) =>
          ticketCount := n;
      }
      if ticketCount == MaxU64 || s.ticketCount == MaxU64 || s.potAmount > MaxU64 - s.ticketPrice {
        return Failure(ArithmeticOverflow);
      }
      ticketCount := ticketCount + 1;
      var ticket := LotteryTicket(ticketCount, buyer, now);
      tickets := tickets[ticketCount := ticket];
      counter := Some(U64(ticketCount));
      s := s.(ticketCount := s.ticketCount + 1);
      s := s.(potAmount := s.potAmount + s.ticketPrice);
      state := Some(s);
      r := Success(ticketCount);
    }

    /** `draw_winner` at ledger time `now`. */
    method DrawWinner(now: u64) returns (r: Result<Address>)
      modifies this
      ensures Step(Snapshot(), r) == LotteryStore.DrawWinner(old(Snapshot()), contractAddress, now)
      ensures r.Failure? ==> Snapshot() == old(Snapshot())
      ensures !old(GetLotteryState()).active || old(GetLotteryState()).ticketCount == 0 ==>
        r == Failure(InactiveOrEmptyLottery)
      ensures counter == old(counter) && tickets == old(tickets)
      ensures r.Success? ==>
        var s := old(GetLotteryState());
        var id := WinningId(now, s.ticketCount);
        && id in tickets
        && r.value == tickets[id].owner
        && GetLotteryState() == s.(active := false, lastWinner := r.value, lastWinAmount := s.potAmount, potAmount := 0)
      ensures old(Valid()) ==> r != Failure(TicketNotFound) && Valid()
    {
      if Valid() {
        DrawWinnerKeepsConsistent(Snapshot(), contractAddress, now);
        DrawWinnerNeverTicketNotFound(Snapshot(), contractAddress, now);
      }
      var s := GetLotteryState();
      if !s.active || s.ticketCount == 0 {
        return Failure(InactiveOrEmptyLottery);
      }
      var winningTicketId := WinningId(now, s.ticketCount);
      if winningTicketId !in tickets {
        return Failure(TicketNotFound);
      }
      var winner := tickets[winningTicketId].owner;
      s := s.(active := false);
      s := s.(lastWinner := winner);
      s := s.(lastWinAmount := s.potAmount);
      s := s.(potAmount := 0);
      state := Some(s);
      r := Success(winner);
    }
  }
}
