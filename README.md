# Crypto lottery contract, modelled in Dafny

`CryptoLotteryContract` is a Soroban smart contract that runs a ledger-resident
lottery. It sells numbered tickets, keeps a pot as bookkeeping, and draws a winner
from the ledger timestamp. Its instance storage holds three kinds of entry:

- the round record `LotteryState` under the key `LOT_STATE`;
- the ticket counter under `TKT_COUNT`;
- one immutable `LotteryTicket` under each key `Ticket(id)`.

There are four entry points: `initialize`, `buy_ticket`, `draw_winner` and
`get_lottery_state`.

The model has four modules:

- `LotteryTypes` (`types.dfy`) defines the records, `u64` and `i32` as newtypes over
  their ranges, the counter entry tagged with the integer type it was stored as, the
  host's `Address` as an opaque type with equality, and the abort reasons.
- `LotteryStore` (`store.dfy`) treats the storage as a value (`Store`). Each entry point
  is a function from the storage before the call to the storage after it plus the
  returned value or abort (`Step`). `Consistent` is the invariant every entry point
  keeps:
  - the counter and the round record exist together;
  - the counter equals `ticket_count`;
  - ids `1..ticket_count` all hold a ticket filed under its own id;
  - an open round's pot is `ticket_count * ticket_price`;
  - a closed round sold tickets, has an empty pot, and paid exactly `ticket_count * ticket_price`.
- `LotteryRuns` (`runs.dfy`) proves facts about whole call sequences. With the
  corrected `initialize` (counter reset to the u64 0, see "## Findings"): the invariant
  holds in every reachable storage, "Ticket not found" is unreachable, n purchases
  after `initialize(p)` return ids `1..n` and build a pot of `n*p`, and the draw pays
  the buyer of ticket `(t mod n) + 1`. With `initialize` as written, no purchase or
  draw of the round it opens succeeds.
- `LotteryContract` (`contract.dfy`) holds the class `CryptoLottery`. Its three fields
  are the three storage entries, and its methods overwrite them step by step as the
  contract does. Each method is proved to produce exactly the storage and result that
  the matching `LotteryStore` function prescribes, and to keep the invariant.

Every Rust `panic!` becomes a `Failure` result, and the storage is left exactly as it
was. Soroban discards all writes of an invocation that panics. So `buy_ticket` aborting
on the pot addition at lib.rs:87 leaves no trace of the ticket and counter writes at
lines 82-83. The model therefore checks every abort condition before its first write.

The `+= 1` at lib.rs:74 and 86 and the `+= ticket_price` at lib.rs:87 are unsigned
64-bit additions. The model treats an addition past 2^64-1 as an abort
(`ArithmeticOverflow`), which is how Rust behaves with overflow checks on. It never
assumes wrap-around.

Inputs from the host are parameters:

- the ledger timestamp is the `now: u64` argument of `BuyTicket` and `DrawWinner`;
- the contract address is the constant field `contractAddress`, fixed by the constructor.

Three details of the code that the model keeps:

- Ticket timestamps are `u64`.
- `buy_ticket` takes the new id from the stored counter (0 when absent). It separately
  increments `ticket_count` in the round record. The invariant proves the two agree.
- `initialize` does not delete old tickets. A new round's ids overwrite the old
  round's entries one by one: a purchase writes only the entry for `ticket_count + 1`,
  and a draw writes no ticket. No property is claimed about the old round's entries
  beyond that.

The host stores every value with its type and converts it back only to that same type.
The model therefore records the type the counter was stored as (`CounterEntry`). That
type matters for `initialize`; see "## Findings". The corrected `initialize`, which
stores the counter as a `u64`, is the one the class and the call-sequence lemmas use.

## Model

| member | source | states |
|---|---|---|
| LotteryStore.WinningId | contracts/hello-world/src/lib.rs:108-110 | the winning id `(timestamp % ticket_count) + 1` always lies in `[1, ticket_count]` and is one more than the timestamp modulo the count |
| LotteryStore.CurrentState | contracts/hello-world/src/lib.rs:133-142 | `get_lottery_state` never aborts; it returns the stored round if there is one, otherwise a closed round with all amounts zero and the contract itself as last winner |
| LotteryStore.InitializeAsWritten | contracts/hello-world/src/lib.rs:41-58 | `initialize` as written opens the same fresh round but stores the counter as the i32 0, so the storage it leaves breaks the invariant |
| LotteryStore.Initialize | contracts/hello-world/src/lib.rs:41-58 | with the counter stored as the u64 0, whatever was stored before: an open empty round at price p with the contract as last winner, the tickets kept, and a consistent store |
| LotteryStore.BuyTicket | contracts/hello-world/src/lib.rs:62-95 | a closed or absent round aborts with InactiveLottery; a counter stored as i32 aborts with ConversionError; every abort, including u64 overflow, leaves the storage unchanged; a success files the buyer's ticket under the returned id, stores that id as the counter and adds one to the round's count |
| LotteryStore.DrawWinner | contracts/hello-world/src/lib.rs:98-130 | a closed or empty round aborts with InactiveOrEmptyLottery; every abort leaves the storage unchanged and is that or TicketNotFound; the counter and the tickets are never changed |
| LotteryStore.InitializeAsWrittenBlocksRound | contracts/hello-world/src/lib.rs:52-73 | after `initialize` as written, a purchase aborts with ConversionError and a draw with InactiveOrEmptyLottery, both leaving the storage as it was |
| LotteryRuns.AsWrittenRoundIsStuck | contracts/hello-world/src/lib.rs:52-73 | after `initialize` as written, no sequence of purchases, draws and lookups changes the storage until the next `initialize` |
| LotteryStore.BuyTicketSuccess | contracts/hello-world/src/lib.rs:73-94 | in a consistent store with an open round with room, a purchase returns `old_count + 1`, files the buyer's ticket with that id and time, sets the counter to it, adds one ticket and one price to the round, and changes no other field or ticket |
| LotteryStore.BuyTicketKeepsConsistent | contracts/hello-world/src/lib.rs:73-88 | `buy_ticket` preserves the invariant (counter = ticket_count, ids 1..count present, pot = count * price while open) |
| LotteryStore.DrawWinnerSuccess | contracts/hello-world/src/lib.rs:108-129 | in a consistent store with an open, non-empty round, the draw returns the owner of ticket `(now % count) + 1`, records them as last winner with the whole pot, closes the round with an empty pot, and leaves count, price, counter and every ticket unchanged |
| LotteryStore.DrawWinnerKeepsConsistent | contracts/hello-world/src/lib.rs:116-124 | `draw_winner` preserves the invariant |
| LotteryStore.DrawWinnerNeverTicketNotFound | contracts/hello-world/src/lib.rs:112-114 | in a consistent store the "Ticket not found" abort cannot happen |
| LotteryStore.DrawClosesRound | contracts/hello-world/src/lib.rs:119-124 | after a successful draw, a second draw aborts with InactiveOrEmptyLottery and any purchase with InactiveLottery |
| LotteryRuns.ApplyKeepsConsistent | contracts/hello-world/src/lib.rs:41-142 | with the corrected `initialize` (u64 counter), each of the four entry points preserves the invariant |
| LotteryRuns.RunKeepsConsistent | contracts/hello-world/src/lib.rs:41-142 | with the corrected `initialize` (u64 counter), every sequence of calls preserves the invariant |
| LotteryRuns.ReachableNeverTicketNotFound | contracts/hello-world/src/lib.rs:112-114 | from a freshly deployed contract, after any call sequence with the corrected `initialize` (u64 counter), a draw never aborts with "Ticket not found" and the counter equals the round's ticket count |
| LotteryRuns.BuyOneLeavesRoom | contracts/hello-world/src/lib.rs:73-88 | one purchase in an open round with room for n tickets succeeds with the next id and leaves a consistent open round with room for n - 1 more |
| LotteryRuns.BuyAllRound | contracts/hello-world/src/lib.rs:73-88 | n purchases in an open round with k tickets sold leave it open and consistent, with k + n tickets, pot (k + n) * price, and price, last winner and last win unchanged |
| LotteryRuns.BuyAllIds | contracts/hello-world/src/lib.rs:73-83 | the i-th of those purchases returns id k + i + 1, and that id holds the i-th buyer's ticket with its time |
| LotteryRuns.BuyAllKeepsTickets | contracts/hello-world/src/lib.rs:82-83 | purchases never overwrite a ticket whose id is at most the count before them |
| LotteryRuns.RoundAfterInitialize | contracts/hello-world/src/lib.rs:41-94 | after the corrected `initialize(p)` (u64 counter) and n purchases, the returned ids are exactly 1..n in order, ticket i belongs to the i-th buyer, and the round is open with n tickets and pot n * p |
| LotteryRuns.RoundWinner | contracts/hello-world/src/lib.rs:41-129 | after the corrected `initialize(p)` (u64 counter), n > 0 purchases and a draw at time t, the buyer of ticket `(t mod n) + 1` wins the pot n * p, and the round is closed with an empty pot |
| LotteryRuns.TwoTicketScenario | contracts/hello-world/src/lib.rs:41-129 | the corrected `initialize(100)` (u64 counter), purchases by a and b, then a draw at time 7: ids 1 and 2, pot 200; b wins 200 and the round closes |
| LotteryContract.CryptoLottery.constructor | contracts/hello-world/src/lib.rs:35-36 | a deployed contract starts with no round record, no counter and no tickets, which satisfies the invariant |
| LotteryContract.CryptoLottery.GetLotteryState | contracts/hello-world/src/lib.rs:133-142 | returns the stored round, or the closed zero-valued round credited to the contract; never aborts |
| LotteryContract.CryptoLottery.Initialize | contracts/hello-world/src/lib.rs:41-58 | overwrites the round record with a fresh open round at the given price and the counter with the u64 0 (the corrected reset), returns that round, leaves the tickets, and establishes the invariant |
| LotteryContract.CryptoLottery.BuyTicket | contracts/hello-world/src/lib.rs:62-95 | leaves the storage and returns the result `LotteryStore.BuyTicket` prescribes: InactiveLottery on a closed round, ConversionError on an i32 counter, no change on any abort; on success the next id, its ticket, the counter, one more ticket and one more price; keeps the invariant |
| LotteryContract.CryptoLottery.DrawWinner | contracts/hello-world/src/lib.rs:98-130 | leaves the storage and returns the result `LotteryStore.DrawWinner` prescribes: no change on abort; on success the owner of ticket `(now % count) + 1`, who becomes last winner with the whole pot; counter and tickets unchanged; in a consistent store never "Ticket not found" and keeps the invariant |

## Findings

| source | as written | input that shows it | evidently intended | confidence | as-written member | corrected member |
|---|---|---|---|---|---|---|
| contracts/hello-world/src/lib.rs:52 | `set(&TICKET_COUNT, &0)` passes an unsuffixed literal to a setter generic over the value type, so the literal becomes an i32. Line 73 reads the same key as a u64, and the read panics when the stored value does not convert. | `initialize(100)` then `buy_ticket(a)`: the purchase aborts, and so does every later purchase and draw of that round | reset the counter to the u64 0 (`&0u64`), so that purchases get ids 1, 2, ... | likely; not executed | LotteryRuns.AsWrittenRoundIsStuck | LotteryStore.Initialize |

## Left out

- LotteryContract.CryptoLottery.Initialize: stores the counter as the u64 0, the
  corrected behaviour; the code as written is modelled only by
  `LotteryStore.InitializeAsWritten` and the lemmas about it.
- LotteryRuns.ApplyKeepsConsistent: holds with the corrected `initialize` (u64 counter) only; with
  `initialize` as written the round is stuck (`LotteryRuns.AsWrittenRoundIsStuck`).
- LotteryRuns.RunKeepsConsistent: holds with the corrected `initialize` (u64 counter) only; with
  `initialize` as written the round is stuck (`LotteryRuns.AsWrittenRoundIsStuck`).
- LotteryRuns.ReachableNeverTicketNotFound: holds with the corrected `initialize` (u64 counter) only; with
  `initialize` as written the round is stuck (`LotteryRuns.AsWrittenRoundIsStuck`).
- LotteryRuns.RoundAfterInitialize: holds with the corrected `initialize` (u64 counter) only; with
  `initialize` as written the round is stuck (`LotteryRuns.AsWrittenRoundIsStuck`).
- LotteryRuns.RoundWinner: holds with the corrected `initialize` (u64 counter) only; with
  `initialize` as written the round is stuck (`LotteryRuns.AsWrittenRoundIsStuck`).
- LotteryRuns.TwoTicketScenario: holds with the corrected `initialize` (u64 counter) only; with
  `initialize` as written the round is stuck (`LotteryRuns.AsWrittenRoundIsStuck`).
- Event logging (`log!`) carries no state and is not modelled.
- Storage retention (`extend_ttl(5000, 5000)`) affects only how long the host keeps the
  entries, not what they hold, and is not modelled.
- Soroban's serialisation of `#[contracttype]` values, the `Symbol` keys and the
  representation of `Address` are not modelled, apart from the integer type stored
  with the counter. Keys are the three fields of the store,
  and `Address` is an opaque type compared only for equality.
- The ledger clock and the contract's own address are host calls, modelled as
  parameters and a constant.
- Nothing is paid or transferred by the contract. The pot is bookkeeping only, and the
  model keeps it as such.
- How unpredictable the winner is: selection from the timestamp is deterministic and
  modelled as such; no claim of fairness is made.
- Whether unsigned overflow panics or wraps depends on a build profile outside this
  code. The model aborts on overflow and does not model wrap-around.
- Tickets from earlier rounds stay in storage after `initialize`. The model keeps them,
  and states only that a draw never changes them and a purchase never overwrites an
  id at or below the current count.
