/** The records the lottery contract persists, and the failures its entry points raise. */
module LotteryTypes {

  /** Rust's u64: the width of every counter, price, amount, id and timestamp. */
  newtype u64 = x: int | 0 <= x <= 0xFFFF_FFFF_FFFF_FFFF

  const MaxU64: u64 := 0xFFFF_FFFF_FFFF_FFFF

  /** Rust's i32, the type an unsuffixed integer literal takes when nothing else fixes it. */
  newtype i32 = x: int | -0x8000_0000 <= x < 0x8000_0000

  /** The value under the counter key, tagged with the integer type it was stored as: the
      host keeps the type with the value and converts back only to the same type. */
  datatype CounterEntry = I32(small: i32) | U64(count: u64)

  /** An account identifier of the host; only compared for equality. */
  type Address(==)

  datatype Option<T> = None | Some(value: T) {
    /** The stored value, or `default` when nothing is stored. */
    function GetOr(default: T): T {
      match this
      case Some(v) => v
      case None => default
    }
  }

  /** The reasons an entry point aborts. The first three are the contract's own panics;
      ConversionError is the panic of a storage read whose stored value is not of the
      type asked for; ArithmeticOverflow is Rust's overflow-check panic on an unsigned
      addition. On any of them the host discards every write of the invocation. */
  datatype Error =
    | InactiveLottery          // buy_ticket while no round is open
    | InactiveOrEmptyLottery   // draw_winner while no round is open or nothing was sold
    | TicketNotFound           // draw_winner found no ticket under the winning id
    | ConversionError          // buy_ticket read the counter as u64, but it holds another type
    | ArithmeticOverflow       // `+= 1` or `+= ticket_price` past the u64 maximum

  datatype Result<T> = Success(value: T) | Failure(error: Error)

  /** One sold ticket; written once and never changed. */
  datatype LotteryTicket = LotteryTicket(ticketId: u64, owner: Address, timestamp: u64)

  /** The singleton round record. */
  datatype LotteryState = LotteryState(
    active: bool,
    ticketCount: u64,
    ticketPrice: u64,
    potAmount: u64,
    lastWinner: Address,
    lastWinAmount: u64)
}
