# Predix: a verified model of the matching engine and what surrounds it

Predix is a prediction market. Users buy and sell whole shares of the YES or NO
outcome of an event. The heart of the backend is one in-memory engine: limit order
books kept in price-time order, and a ledger that freezes cash or shares when an order
is admitted, moves them when trades settle, and releases what is left. Commands come
from durable per-partition streams and are replayed after a restart. The engine's
events go through an on-disk outbox to an event stream, and a database worker applies
them to Postgres behind a fence that is meant to shut out engines that lost their lease.

This project models four linked parts and proves what holds over every run of them.

## How the model is laid out

The engine:

- `Types`, `Matching`, `EngineState`: the entities, and the atomic sections (the code
  between taking and releasing the engine mutex) as functions on a state.
- `EngineObject`: the engine as a class with mutable maps and books; each method is
  proved to have exactly the effect of the corresponding function.
- `PriceTime`, `Priority`: an independent greedy price-time rule, and the proof that
  the match loop follows it.
- `Invariant`, `StepInvariant`, `MatchInvariant`, `Shares`, `Cash`: what every atomic
  section keeps. `Runs`, `Lifecycle`, `Window`, `Outcomes`, `Replies`, `Walk`, `Budget`, `Overdraw`,
  `Surplus`, `Bargain`: the theorems over runs, where a run is any sequence of atomic sections of any number of
  handlers in any interleaving, from any well-formed state (seeded positions included).

The command log and the projection:

- `Commands`, `Replay`, `Restart`, `Unhandled`, `Funding`: whole commands, redelivery,
  replay on top of a live state and from the start, commands the replay reads before they
  were handled, orders that come before their user is funded.
- `Database`: tables, SQL statements as steps, the settlement transaction, the fence.
- `Projection`, `Delivery`: the tables agree with the engine, also when entries of the
  event stream are redelivered.

The protocol around the engine:

- `Stream`: partition workers whose admission, stamping, publication and matching
  interleave; `Publication`: what they owe the stream. `Fencing`: leases, tokens, stalls, expiries, crashes, fence checks.
- `Outbox`, `CrashSafety`: the journal byte by byte, the emit cycle, recovery, crashes.

Reads and arithmetic: `Depth`, `Bounds`. `Sums` holds sums over maps.

A trade still to be settled is *pending*: between the match loop and the last
settlement the ledger lags behind the orders, and the invariants `CashOk` and
`SharesOk` carry the pending trades as an argument. *Slack* is what a user has reserved
beyond the locks of the user's orders. A market BUY is *in budget* when its trades cost
at most its lock.

## Where the code does not do what its documentation says

- Cash is created by a market BUY that walks the book past the cash its user has
  reserved: the loop has no budget (engine.go:933-949) and the ledger clamps the missing
  amount to zero (ledger.go:147-149). `Walk.CostOfWalking` reads the cost off the book
  before the match; `Budget.MarketBuyCash` gives the exact amount and the exact condition
  in its terms, `Budget.OverBudgetCreatesCash` the states. Between its lock and what its
  user has reserved, such an order eats into the locks of the user's other orders:
  `Overdraw.ReservationKeptExactlyWhen`.
- A failed publication of a new order deletes it without releasing its lock
  (engine.go:744-750). `Runs.RunCash` and `Runs.RunShares` show that this, and nothing
  else, leaves reserved funds that no order accounts for.
- A BUY that rests has locked more than its remainder is worth exactly when it bought part
  of its quantity below its limit (`Surplus.SurplusExactlyWhen`). It keeps that surplus
  locked when another order fills it (engine.go:1033-1036 against 874-876), for good:
  `Surplus.FilledMakerKeepsSurplus` has the condition, `Bargain.SurplusRemains` a run for
  every price below every limit.
- replay.go:15-18 calls the handlers idempotent. Replaying a log changes nothing exactly
  when the live state turns each of its commands away (`Replay.ReplayExactlyWhen`, for
  every new draw of identifiers). Commands that were accepted and name their order are
  turned away; an order without an identifier is placed again under a new one
  (`Replay.NamelessOrderRepeats`), and one refused at first may be accepted
  (`Replay.RejectedThenReplayed`), with its events suppressed.
- replay.go:11-14 says the replay reconstructs the state. For one partition's log, from the
  state the process started in, it does so exactly when no admitted order's publication
  failed and no admitted order was named by a draw (`Restart.RebuildsExactlyWhen`). The one
  failure that leaves no trace is that of an order that locked nothing and was submitted
  again (`Restart.ZeroLockRetry`). An engine with several partitions replays each stream on
  its own (worker.go:45-157) while balances are shared, and rebuilds something else when the
  streams are interleaved differently than they were live (`Restart.TwoStreams`).
- replay.go:16-18 says the tables already hold the replayed effects. The replay reads the
  whole stream, with commands that were never handled; their events are suppressed and
  their later delivery finds nothing to do. The tables agree exactly when those commands
  emit nothing (`Unhandled.TablesAgreeExactlyWhen`), and otherwise never catch up
  (`Unhandled.TablesNeverCatchUp`).
- ledger.go:48-50 says users are funded by USER_CREATED only. An account is also opened by
  placing a BUY and by being a party to a trade, after which USER_CREATED grants nothing.
  `Funding.AccountsExactlyWhen` and `Funding.FundingAfterLog` are exact over whole logs;
  `Funding.OrderBeforeFunding` tells it for a single order from the state before it.
- outbox.go:21-25 says the journal guarantees that no trade is lost when Redis fails.
  The next successful emit truncates the whole journal, with entries that were never
  published (engine.go:1641-1643): `CrashSafety.LossExactlyWhen` says
  which runs lose an envelope, `CrashSafety.FailedThenLost` gives one.
- A market order with a negative price is accepted ("price is ignored") but its row
  violates a table constraint (`Projection.NegativePriceBlocks`).
- The engine cancels the rest of a market order without emitting an event, so its row
  keeps PENDING or PARTIAL. `Projection.AgreementReads` says exactly which statuses agree.
- The buyer's transaction row carries the taker's order and the seller's row the
  maker's (worker.go:495-520), so when the taker sells each row carries the other user's
  order (`Bargain.RowsCarryOwnOrders`).

## Model

| member | source | states |
|---|---|---|
| EngineState.Validate | internal/engine/engine.go:769-812 | a request passes if and only if quantity, event, user, side, outcome, type and limit price are acceptable; every part of it carries over into the terms |
| EngineObject.Engine.constructor | internal/engine/engine.go:138-187 | a new engine with any seeded positions is well formed and otherwise empty |
| EngineObject.Engine.HandleUserCreated | internal/engine/ledger.go:14-44 | opens an account with 100 units of cash once, no top-up on repetition |
| EngineObject.Engine.GetOrCreateBalance | internal/engine/ledger.go:51-58 | reads a balance, opening a zero entry when absent |
| EngineObject.Engine.GetOrCreatePosition | internal/engine/ledger.go:62-76 | the same for a position of one user, event and outcome |
| EngineObject.Engine.ReserveOrder | internal/engine/ledger.go:93-132 | freezes cost or shares or refuses, on the mutable maps, as the specification does |
| EngineObject.Engine.SettleTrade | internal/engine/ledger.go:141-187 | one trade's four ledger moves and two lock reductions, clamps included |
| EngineObject.Engine.UnlockOrders | internal/engine/ledger.go:171-186 | the locks of taker and maker go down by cost or quantity; an unknown order is skipped |
| EngineObject.Engine.ReleaseOrder | internal/engine/ledger.go:192-222 | an open lock returns to available and becomes zero |
| EngineObject.Engine.RemoveInvalid | internal/engine/engine.go:1108-1140 | drops exactly the leading orders that are filled, canceled or without remainder |
| EngineObject.Engine.FindCounterparty | internal/engine/engine.go:974-998 | the first order in the queue that is live, of another user, for the same outcome and at any price for a market order, at its limit or better for a limit order; -1 iff there is none |
| EngineObject.Engine.ExecutePair | internal/engine/engine.go:1000-1042 | at any position of any queue: one trade of the smaller remainder at the maker's price, both orders and the queue afterwards; nothing when either has nothing left |
| EngineObject.Engine.MatchAgainstBook | internal/engine/engine.go:926-969 | the loop over a mutable book computes the specification's trades, orders and queue |
| EngineObject.Engine.InsertSorted | internal/engine/engine.go:1078-1106 | inserts behind everything not strictly worse |
| EngineObject.Engine.AddOrder | internal/engine/engine.go:1078-1106 | append and stable sort of one side of a book |
| EngineObject.Engine.RemoveOrder | internal/engine/engine.go:1288-1314 | removes the first entry of an order, order of the others kept |
| EngineObject.Engine.HandleCreateEvent | internal/engine/engine.go:550-578 | opens an empty market once |
| EngineObject.Engine.AdmitOrder | internal/engine/engine.go:636-718 | validation, duplicate check and reservation on mutable state |
| EngineObject.Engine.ForgetOrder | internal/engine/engine.go:744-750 | a failed publication deletes the order and nothing else |
| EngineObject.Engine.MatchOrder | internal/engine/engine.go:814-879 | canceled check, match loop, status, resting, settlement and release in one locked section |
| EngineObject.Engine.MatchAndRest | internal/engine/engine.go:839-864 | match loop, final status and resting, before any settlement |
| EngineObject.Engine.HandleCancelOrder | internal/engine/engine.go:1201-1253 | checks, removal from the book, status, release, with every error case |
| EngineObject.Engine.HandleCreateOrder | internal/engine/engine.go:636-767 | the whole handler, with publication succeeding or failing |
| Outcomes.AdmittedExactlyWhen | internal/engine/engine.go:661-718 | an order is admitted if and only if it is well formed, new, for a known event and affordable; confirmed if and only if its id is known |
| Outcomes.AdmissionFreezes | internal/engine/ledger.go:93-132 | an admitted order is pending and unfilled and exactly its demand moved from available to reserved; nothing else changed |
| Outcomes.RefusalChangesNothing | internal/engine/engine.go:691-716 | a refused or repeated order changes no holding, order or book |
| Outcomes.MatchOutcome | internal/engine/engine.go:841-876 | filled iff nothing remains; a limit remainder rests with the latest arrival; a market order never rests; a finished order has no lock |
| Outcomes.CanceledExactlyWhen | internal/engine/engine.go:1201-1232 | a cancellation succeeds iff the order is known, of the event and live; a failed one changes nothing |
| Replies.AcceptedExactlyWhen | internal/engine/engine.go:517-760 | for every command: exactly when it is confirmed; a well-formed creation whose order is known always is |
| Replies.EmitsExactlyWhen | internal/engine/engine.go:727-760 | for every command: exactly when it emits events, the creation first and as admitted, then trades of that order alone |
| Replies.RefusedBecause | internal/engine/engine.go:661-716 | the reason of a refused order is the first thing wrong with it |
| Replies.NotCanceledBecause | internal/engine/engine.go:1193-1225 | the reason of a failed cancellation |
| Matching.MatchAccounts | internal/engine/engine.go:926-1042 | every order moves by exactly the quantity of the trades naming it; nothing else of it changes but a maker's status |
| Matching.MatchTrade | internal/engine/engine.go:1142-1175 | every trade pairs the incoming order with a queued order it may match, at the maker's price, under a fresh id |
| Matching.MatchPrioritized | internal/engine/engine.go:1000-1050 | the loop keeps the queue in price-time order |
| Matching.MatchExhausts | internal/engine/engine.go:933-969 | when the loop ends with quantity left, no eligible order is left in the queue |
| Matching.MatchIgnores | internal/engine/engine.go:926-969 | orders outside the queue are untouched |
| PriceTime.MatchIsGreedy | internal/engine/engine.go:926-1106 | the loop's trades and orders are those of the rule that always takes the best-priced, earliest-arrived eligible order of a set |
| PriceTime.BestIsUnique | internal/engine/engine.go:974-998 | that rule leaves no choice |
| PriceTime.PricesMonotone | internal/engine/engine.go:926-1042 | successive trades get no better for the taker |
| PriceTime.PriceWithinLimit | internal/engine/engine.go:1052-1076 | no trade is worse than the taker's limit |
| PriceTime.MaximalFill | internal/engine/engine.go:926-1042 | the loop fills the lesser of the quantity and the eligible liquidity |
| Priority.MatchFollowsPriceTime | internal/engine/engine.go:814-864 | in every well-formed state a match's trades are the greedy ones over all live limit orders of the other side |
| Priority.MatchFillsMaximally | internal/engine/engine.go:814-864 | and the order is filled up to its quantity or all the liquidity eligible for it |
| Priority.FillsWhatItMeets | internal/engine/engine.go:1052-1076 | in every well-formed state an order fills the lesser of its quantity and what remains of all live limit orders of other users that it meets: at any price for a market order of either side, at its limit or better for a limit order |
| Priority.TradesIffMeets | internal/engine/engine.go:974-998 | an order trades iff it meets one |
| Priority.TradeSays | internal/engine/engine.go:1142-1175 | every trade, field by field: the two orders, their users as buyer and seller, the maker's price |
| Priority.MatchPrices | internal/engine/engine.go:814-864 | and its trade prices are monotone and within the limit |
| MatchInvariant.AddIsInsert | internal/engine/engine.go:1078-1106 | on an ordered side, append plus stable sort is insertion behind equals |
| MatchInvariant.TradedUncrossed | internal/engine/engine.go:841-864 | after matching, no bid and ask of different users cross |
| MatchInvariant.TradedQueue | internal/engine/engine.go:841-864 | after matching, every side of every book is ordered and holds only orders that belong there |
| MatchInvariant.MatchWf | internal/engine/engine.go:814-879 | matching keeps the whole book and order invariant |
| Invariant.AdmitWf | internal/engine/engine.go:691-718 | admission keeps it |
| Invariant.EmitFailsWf | internal/engine/engine.go:744-750 | a failed publication keeps it |
| StepInvariant.CancelWf | internal/engine/engine.go:1201-1253 | cancellation keeps it |
| StepInvariant.WithdrawnResting | internal/engine/engine.go:1234-1248 | cancellation takes exactly one order out of one side of one book and keeps the order of the rest |
| Runs.RunWf | internal/engine/engine.go:636-1314 | every run keeps orders well formed, books ordered, uncrossed and free of dead orders |
| Runs.NeverCrossed | internal/engine/engine.go:841-864 | in every reachable state a resting bid is below every resting ask of another user |
| Runs.AlwaysPriceTime | internal/engine/engine.go:1078-1106 | in every reachable state a side is sorted by price and first come first served within a price |
| Shares.MatchShares | internal/engine/ledger.go:141-222 | matching keeps share slack, share totals and, for each live SELL, lock equal to remainder |
| Shares.AdmitShares | internal/engine/ledger.go:117-132 | admission keeps them |
| Shares.CancelShares | internal/engine/ledger.go:207-221 | cancellation keeps them |
| Shares.EmitFailsShares | internal/engine/engine.go:744-750 | a failed publication adds the order's lock to the slack |
| Runs.RunShares | internal/engine/ledger.go:93-222 | every run, over budget or not, conserves the shares of each outcome; reserved shares equal locks plus what failed publications left |
| Cash.MatchCash | internal/engine/ledger.go:141-222 | in budget, matching keeps each user's slack and the cash total |
| Cash.AdmitCash | internal/engine/ledger.go:93-115 | admission keeps them, and a limit BUY locks its remainder at its limit |
| Cash.CancelCash | internal/engine/ledger.go:192-206 | cancellation keeps them |
| Cash.EmitFailsCash | internal/engine/engine.go:744-750 | a failed publication adds the order's lock to the slack |
| Cash.UserCreatedCash | internal/engine/ledger.go:34-39 | a new account adds exactly the starting balance, a known one nothing |
| Runs.RunCash | internal/engine/ledger.go:14-222 | every in-budget run keeps the reservation invariant, changes total cash by grants only, and its slack grows by failed publications only |
| Runs.NoLeak | internal/engine/engine.go:744-750 | without failed publications, slack never grows |
| Runs.LimitRunsInBudget | internal/engine/ledger.go:99-104 | runs without market BUYs are in budget |
| Budget.SettleExact | internal/engine/ledger.go:141-187 | a covered settlement is plain double-entry arithmetic |
| Budget.ReleaseExact | internal/engine/ledger.go:192-222 | a covered release never clamps |
| Budget.MatchExact | internal/engine/ledger.go:93-222 | in budget, a whole match is the loop plus arithmetic without clamps |
| Walk.LoopSpendsWalk | internal/engine/engine.go:933-949 | the loop of a BUY spends what walking the queue from the front foretells: skip what cannot trade, buy from the rest up to the quantity |
| Walk.SpendIsWalk | internal/engine/engine.go:926-949 | in every well-formed state the cost of a BUY can be read off the book before it is matched |
| Walk.InBudgetExactlyWhen | internal/engine/ledger.go:99-104 | a market BUY is in budget iff walking the book costs at most its lock |
| Budget.MarketBuyCash | internal/engine/ledger.go:141-149 | a market BUY creates exactly the cash by which walking the book, before the match, costs more than its user has reserved; total cash is kept iff it does not |
| Budget.OverBudgetCreatesCash | internal/engine/engine.go:933-949 | for every price, a well-formed state in which that happens |
| Overdraw.ReservationKeptExactlyWhen | internal/engine/ledger.go:141-149 | matching a market BUY keeps the reservation invariant iff its cost beyond its lock is within the user's slack, or the user has nothing else locked |
| Overdraw.OtherBuyUntouched | internal/engine/engine.go:926-1042 | a BUY that is not being matched takes no part in the match of another BUY |
| Surplus.MakerLock | internal/engine/ledger.go:171-186 | a resting BUY's lock falls by its limit price for every share it bought |
| Surplus.FilledMakerKeepsSurplus | internal/engine/engine.go:1033-1036 | a resting BUY filled by another order ends with no lock iff it had locked exactly its remainder at its limit |
| Surplus.SurplusStays | internal/engine/engine.go:874-876 | in every later run that surplus stays locked |
| Surplus.TakerLock | internal/engine/ledger.go:171-186 | matching lowers the lock of a BUY that stays live by exactly what it spends |
| Surplus.SurplusExactlyWhen | internal/engine/ledger.go:100-104 | a limit BUY that rests after matching has locked more than its remainder at its limit iff it bought some shares below the limit |
| Bargain.SurplusRemains | internal/engine/engine.go:1033-1036 | for every price below every limit, a run after which a filled BUY has the difference locked, and whose transaction rows carry the wrong user's orders |
| Bargain.RowsCarryOwnOrders | internal/dbworker/worker.go:495-520 | in every match, the buyer's and the seller's row carry their own user's order iff the incoming order buys |
| Lifecycle.RunHistory | internal/engine/engine.go:1025-1032 | over every run an order's fill is the sum of the trades naming it |
| Lifecycle.NoSelfTrade | internal/engine/engine.go:988-990 | no trade of any run has one user on both sides; quantity and price are positive |
| Lifecycle.FinishedIsFinal | internal/engine/engine.go:821-826 | a filled or canceled order never changes and is never traded again |
| Window.CanceledInWindow | internal/engine/engine.go:691-767 | an order canceled between reservation and matching, with any handlers in between and after, returns its lock once and never trades or rests; a SELL needs no budget, a BUY only its own lock covered |
| Window.DroppedAfterCancel | internal/engine/engine.go:744-750 | if its publication fails after the cancellation, dropping it moves no funds and leaves none reserved |
| Window.InvariantCovers | internal/engine/ledger.go:192-222 | the reservation invariants cover every order's lock |
| Window.CancelReturnsLock | internal/engine/engine.go:1201-1253 | a cancellation returns exactly the lock to its owner and changes no other holding or order |
| Window.AdmitCancelRestores | internal/engine/ledger.go:93-222 | admission followed by cancellation restores every holding |
| Commands.HandleAllAppend | internal/engine/engine.go:517-548 | handling a log in two parts is handling it in one |
| Replay.AbsorbedIsNoOp | internal/engine/engine.go:693-701 | a command whose effect is there under its own identifier changes nothing and emits nothing |
| Replay.AcceptedIsAbsorbed | internal/engine/engine.go:693-701 | accepting a command that names its order leaves its effect |
| Replay.AbsorbedStays | internal/engine/engine.go:1217-1224 | no later command takes the effect away |
| Replay.RepeatsChangeNothing | internal/engine/engine.go:421-515 | redelivering accepted commands that name their order, with any draws and at any later points, changes neither the final state nor the events |
| Replay.IdleIsNoOp | internal/engine/engine.go:661-718 | a command that a guard turns away changes nothing and emits nothing |
| Replay.BusyMoves | internal/engine/engine.go:661-767 | any other command adds an entry or finishes an order, which no later command undoes |
| Replay.NoOpExactlyWhen | internal/engine/replay.go:54-73 | a log leaves the state as it was iff each of its commands is turned away by a guard on that state |
| Replay.ReplayExactlyWhen | internal/engine/replay.go:11-103 | replaying a log on its own final state, with any new draws, changes nothing iff that state turns each command away |
| Replay.AcceptedReplayExactlyWhen | internal/engine/engine.go:661-665 | for an all-accepted log: iff each order without an identifier would be turned away by now |
| Replay.NamelessOrderRepeats | internal/engine/engine.go:661-665 | an order without an identifier that can still be paid for is placed again under the new one |
| Replay.ReplayIsNoOp | internal/engine/replay.go:11-103 | replaying an all-accepted log of named orders on its own final state, with any draws, changes nothing and emits nothing |
| Replay.RejectedThenReplayed | internal/engine/replay.go:15-18 | a log whose replay accepts what was refused |
| Restart.RebuildsExactlyWhen | internal/engine/replay.go:11-18 | replay of one partition's log from the starting state rebuilds the live state iff no admitted order's publication failed and no admitted order was named by a draw, resubmissions included |
| Restart.SameEffect | internal/engine/engine.go:727-752 | a command that is published and named has the same effect live and in the replay |
| Restart.Diverges | internal/engine/engine.go:744-750 | after the failed publication of an order that is not submitted again, or a redrawn identifier, the replay knows an order that the live engine does not |
| Restart.SellTells | internal/engine/engine.go:744-750 | the shares of a failed SELL stay reserved live and not in the replay, submitted again or not |
| Restart.BuyTells | internal/engine/engine.go:744-750 | in budget, so does the cash of a failed BUY |
| Restart.ZeroLockRetry | internal/engine/ledger.go:100-104 | an order that locked nothing, failed and was submitted again at once, is rebuilt in spite of the failure |
| Restart.StreamsDoNotCommute | internal/engine/worker.go:45-157 | two orders of one user that are affordable one at a time leave different states in the two orders of handling |
| Restart.TwoStreams | internal/engine/worker.go:120-130 | for every positive cash, two streams whose replay depends on their interleaving |
| Unhandled.TablesAgreeExactlyWhen | internal/engine/replay.go:16-73 | after a restart the tables agree with the replayed engine iff the commands not handled live emit nothing |
| Unhandled.TablesNeverCatchUp | internal/engine/replay.go:16-73 | when those are accepted and named, their later delivery emits nothing, and the disagreement stays |
| Replay.PartitionLoop.Apply | internal/engine/engine.go:517-548 | one command on the mutable engine; events are appended unless replaying |
| Replay.PartitionLoop.ReplayCommandLog | internal/engine/replay.go:19-90 | the loop applies exactly the readable entries, each with its new draw, leaves the event stream alone and clears the flag |
| Replay.ReadableEntries | internal/engine/replay.go:46-81 | every readable entry is executed once and in order, with its own draw, and no other |
| Database.Worker.HandleOrderCreated | internal/dbworker/worker.go:237-287 | inserts the row; a known order is no error; constraint and reference errors leave the table alone |
| Database.Worker.HandleOrderCanceled | internal/dbworker/worker.go:289-315 | sets the status of a known row |
| Database.Worker.HandleEnvelope | internal/dbworker/worker.go:181-217 | a stale envelope is dropped without trace, any other is applied or fails without trace, a lost acknowledgement being the one error with an effect; an unreadable fence is an error |
| Database.Worker.ApplyOrderFill | internal/dbworker/worker.go:545-580 | fill, remainder and status of one row |
| Database.Worker.DeductBalance | internal/repository/users.sql.go:64-83 | guarded: one row iff the balance covers the amount |
| Database.Worker.AddBalance | internal/repository/users.sql.go:15-30 | unguarded credit |
| Database.Worker.UpsertPosition | internal/repository/postion.sql.go:74-95 | adds shares to a row, creating it when absent |
| Database.Worker.Settle | internal/dbworker/worker.go:358-543 | with the connection lost at any statement: either the whole settlement or no trace, a lost acknowledgement of the commit being the one error with an effect; without loss, success is decided by guard and references |
| Database.SettledExactlyWhen | internal/dbworker/worker.go:358-470 | a trade settles iff it is well formed and either known or backed by its rows and the buyer's balance, and which error it is otherwise |
| Database.InsertedExactlyWhen | internal/dbworker/worker.go:237-287 | an order's row is inserted as it is, ignored when known, or rejected, and by which constraint |
| Database.TablesAreFold | internal/dbworker/worker.go:358-543 | from tables without trades, after any deliveries with duplicates, failures and lost acknowledgements: every balance, position, volume and fill is its start plus each settled trade once, every order row follows from its fill, and each settled trade has exactly one BUY and one SELL row with its parties, orders, quantity, price, outcome and amount |
| Database.FoldDetermines | internal/dbworker/worker.go:358-580 | two delivery sequences that settled the same trades leave the same balances, volumes, orders and shares |
| Database.LedgerReconciles | internal/dbworker/worker.go:448-520 | after any deliveries each user's balance has changed by exactly what the user's transaction rows add up to |
| Database.RedeliveryIsIdle | internal/dbworker/worker.go:406-431 | a settled trade delivered again, after any further deliveries, changes nothing that follows |
| Database.DeliveriesConserve | internal/dbworker/worker.go:439-491 | total balances and the shares of each outcome are unchanged |
| Projection.SettleMirrors | internal/dbworker/worker.go:358-543 | the worker settles an engine trade without failing, and the tables mirror the ledger after its own settlement |
| Projection.MatchMirrors | internal/engine/engine.go:814-911 | the same for a whole match, release included |
| Projection.HandleProjects | internal/engine/engine.go:517-548 | the same for every command, accepted or refused |
| Projection.LogProjects | internal/dbworker/worker.go:181-580 | for every log, the emitted events apply without a failure and leave tables and engine in agreement |
| Projection.NewAgrees | internal/engine/ledger.go:34-39 | a new engine with any seeded positions agrees with tables of freshly signed-up users, so the theorem has a start |
| Projection.AgreementReads | internal/dbworker/worker.go:358-580 | agreement read out: balance is available plus reserved, fills are equal, status equal iff the order is not a canceled market order |
| Projection.NegativePriceBlocks | internal/engine/engine.go:801-803 | an admitted order's row is accepted iff its price is not negative |
| Funding.OrderBeforeFunding | internal/engine/ledger.go:34-58 | for one order of a user without an account and USER_CREATED right after it: nothing is granted iff the order is a placed BUY, or a SELL of shares the user has to a resting bid |
| Funding.AccountsExactlyWhen | internal/engine/ledger.go:34-58 | over every log a user has an account iff the user had one, or some command funded the user, placed a BUY of the user, or traded with the user's order, resting ones included |
| Funding.FundingAfterLog | internal/engine/ledger.go:34-44 | USER_CREATED after a log grants nothing iff the log did one of these |
| Funding.UnfundedBuyLeavesNothing | internal/engine/ledger.go:95-111 | a limit BUY before USER_CREATED leaves the user with nothing in the engine |
| Delivery.LogQuiet | internal/engine/engine.go:821-826 | in the events of every log an order is not traded after its cancellation |
| Delivery.RepeatsAreIdle | internal/dbworker/worker.go:151-179 | repeats at any later time have no effect on such a stream |
| Delivery.DeliveryAgrees | internal/dbworker/worker.go:151-217 | for every log and every redelivery, draining never fails and ends in agreement |
| Stream.StreamOrder | internal/engine/engine.go:727-756 | for every interleaving of workers and failing publications, each trade follows the creation of both its orders and each partition's sequences increase |
| Stream.NeverStuck | internal/engine/engine.go:727-760 | an idle worker can begin any command, and one in the middle of a command can always go on |
| Stream.MatchedCreated | internal/engine/engine.go:901-921 | the orders of trades about to be published are already in the stream |
| Stream.CountersAfterStamp | internal/engine/engine.go:1589-1595 | a drawn sequence is beyond all published ones of its partition |
| Publication.PublishesWhatItOwes | internal/engine/engine.go:727-921 | for every interleaving of workers: the creation, trades and cancellations that a worker's commands call for are published in order and once, but for those whose own publication fails, and nothing else is |
| Publication.AllPublished | internal/engine/engine.go:901-921 | a worker between commands whose publications did not fail has published all of them, whatever the others did |
| Publication.ScheduleIsRun | internal/engine/engine.go:636-921 | the engine under every interleaving of workers is in a state of a run of locked sections, so the theorems over runs hold of it |
| Publication.AloneIsLog | internal/engine/engine.go:421-548 | for one worker alone: at every moment stream and events under way are those of handling its commands one after the other |
| Publication.StreamIsLog | internal/engine/engine.go:421-548 | so its stream is the event list that the projection and redelivery theorems are about |
| Fencing.Lease.Acquire | internal/partition/lease.go:34-36 | succeeds iff the key is absent, and then stores the caller |
| Fencing.Lease.Renew | internal/partition/lease.go:50-64 | succeeds iff the caller is stored; never writes the owner |
| Fencing.Lease.Release | internal/partition/lease.go:77-86 | deletes the key iff the caller is stored |
| Fencing.FencingTokens.Next | internal/partition/fencing.go:22-24 | a new token, larger than all before and not zero |
| Fencing.FencingTokens.Current | internal/partition/fencing.go:28-35 | the latest token, zero when none was drawn |
| Fencing.PartitionOwner.Take | internal/engine/worker.go:49-100 | ownership means a stored lease and a fresh token; without a token the lease is given back, and a failed draw may have advanced the counter |
| Fencing.PartitionOwner.Yield | internal/engine/worker.go:137-143 | lets go of the lease only if still stored, then drops the token |
| Fencing.AcceptedInTokenOrder | internal/dbworker/worker.go:608-641 | for every interleaving, accepted tokens never decrease, and what is accepted at one counter value comes from one acquisition |
| Fencing.OldTokensShutOut | internal/dbworker/worker.go:629-641 | in every reachable state an envelope is accepted iff it has no token or its token is the counter's current value; without a counter only the former occurs |
| Fencing.CurrentTokenGetsThrough | internal/dbworker/worker.go:629-641 | what the engine with the last token stamps is accepted once it is published and checked |
| Fencing.StampsOwnToken | internal/engine/engine.go:1572-1594 | every stamped envelope carries the nonzero token of its engine's own current acquisition |
| Fencing.NothingNewIsLegacy | internal/dbworker/worker.go:630-634 | nothing published in a run takes the legacy path |
| Fencing.OwnerKeepsLease | internal/partition/lease.go:41-86 | whatever others do, a lease that neither expires nor is released by its owner stays |
| Fencing.LeaseChangesExactlyWhen | internal/partition/lease.go:34-86 | of all actions of all engines, the lease changes iff an engine takes it while free, it expires, or the stored engine lets it go; and what it becomes |
| Fencing.RenewDecides | internal/engine/worker.go:190-208 | a renewal by the stored engine changes nothing; any other owner is on its way out and does not own again before it draws a token |
| Fencing.PassGivesBack | internal/engine/worker.go:45-157 | a pass of the ownership loop ends with the lease free, no token kept and the counter one higher |
| Fencing.FailedDrawGivesBack | internal/engine/worker.go:70-100 | without a token the lease is given back, whether or not the failed draw counted |
| Fencing.OneOwner | internal/engine/worker.go:45-157 | in runs without an expiry at most one engine is between acquisition and release |
| Fencing.ExpirySplitsOwnership | internal/engine/worker.go:162-214 | after an expiry two engines may own at once |
| Outbox.JournalReadsBack | internal/engine/outbox.go:41-92 | what was appended is read back line by line, a torn line last |
| Outbox.UnsentInJournal | internal/engine/outbox.go:71-127 | a recovery finds every appended envelope, and the torn one iff its whole line was written |
| Outbox.PlainCodecIsFaithful | internal/engine/outbox.go:131-157 | what is asked of the encoding can be had |
| Outbox.ScanEmptyLine | internal/engine/outbox.go:78-88 | empty lines are skipped |
| Outbox.ScanReturn | internal/engine/outbox.go:78-88 | a carriage return before the line end is not part of the line |
| Outbox.ScanLimit | internal/engine/outbox.go:78-92 | a line is read iff it is shorter than 64 KiB; a longer one ends the scan and nothing after it is read |
| Outbox.AppendBehindTorn | internal/engine/outbox.go:41-92 | a line appended behind a torn one is glued to it, cannot be decoded, and a recovery finds only what is before |
| Outbox.OutboxFile.Append | internal/engine/outbox.go:41-49 | one more line |
| Outbox.OutboxFile.ReadAll | internal/engine/outbox.go:71-92 | the scanning loop returns the non-empty lines, or stops at a line over the scanner's limit |
| Outbox.OutboxFile.Emit | internal/engine/engine.go:1606-1643 | journal, stream and channel after an emit, for each Redis failure |
| Outbox.OutboxFile.Republish | internal/engine/outbox.go:131-188 | a readable line goes to the stream, and to the channel iff it is a trade; an unreadable one goes nowhere; when it fails |
| Outbox.OutboxFile.Recover | internal/engine/outbox.go:97-127 | succeeds iff the journal is read to its end and Redis answers often enough; then everything readable is in the stream in order and exactly its trades in the channel, each as often as it was journaled; a failure keeps the journal, with a beginning of it published |
| Outbox.BroadcastIsTrades | internal/engine/outbox.go:155-181 | what a recovery broadcasts is the subsequence of the trades |
| Outbox.BroadcastCounts | internal/engine/outbox.go:155-181 | and each envelope is broadcast as often as it was journaled if it is a trade, otherwise never |
| CrashSafety.NeverLost | internal/engine/outbox.go:41-127 | with crashes anywhere, within a write and within a recovery, each journaled envelope is in the stream or in the journal |
| CrashSafety.RecoveryDelivers | internal/engine/outbox.go:97-127 | a completed recovery leaves an empty journal and everything in the stream, trades in the channel |
| CrashSafety.NothingInvented | internal/engine/outbox.go:97-188 | however often the process crashes and recovers, the stream gains only journaled envelopes and the channel only trades of the stream |
| CrashSafety.CrashInCycle | internal/engine/engine.go:1606-1643 | a crash anywhere in the emit cycle and the recovery after it: each target gets the envelope, and gets it twice iff it had it before the crash |
| CrashSafety.EmitsInOrder | internal/engine/engine.go:1606-1643 | a process that goes on after errors sends each envelope the stream accepts once and in order, and each published trade to the channel |
| CrashSafety.LossExactlyWhen | internal/engine/engine.go:1606-1643 | for every run of emits that goes on after Redis errors: nothing is lost to the stream, or to both targets, iff no emit succeeds after one that missed it, nor after such a leftover |
| CrashSafety.FailedThenLost | internal/engine/engine.go:1624-1643 | an envelope whose publication failed is lost with the next successful emit |
| Depth.Aggregate | internal/engine/engine.go:1358-1480 | exactly one level per shown price, bids falling and asks rising strictly, with exact quantity, count and total |
| Depth.Tallies | internal/engine/engine.go:1367-1389 | the tally of each price while walking the queue |
| Depth.LevelMeans | internal/engine/engine.go:1367-1406 | a level counts the queued live orders at its price, and its quantity is the sum of their remainders |
| Depth.BidsFallAsksRise | internal/engine/engine.go:1408-1474 | every depth has bids falling and asks rising strictly |
| Depth.DepthIsUnique | internal/engine/engine.go:1358-1480 | there is only one such list |
| Bounds.BestLevelFirst | internal/engine/engine.go:1358-1480 | in every well-formed state the first level has the price of the first order in the book, and there is a level iff the book has an order |
| Bounds.BidsWithinReserved | internal/engine/ledger.go:99-113 | in budget, the value of all live limit BUYs is at most all reserved cash |
| Bounds.DepthTotals | internal/engine/engine.go:1396-1406 | the totals of a depth add up to the value of the orders shown |
| Bounds.BidDepthWithinReserved | internal/engine/engine.go:1358-1418 | in budget, the bid totals of a book are at most all reserved cash |
| Bounds.SettlementFits | internal/engine/ledger.go:143-169 | one settlement in the middle of a match: product, balances and lock fit when the cash supply does |
| Bounds.MatchSettlementsFit | internal/engine/engine.go:866-870 | so does every settlement of a match in budget |
| Bounds.RunSettlements | internal/engine/ledger.go:141-187 | and every settlement of every match of an in-budget run, when the cash supply at its end fits in 64 bits |
| Bounds.RunFits | internal/engine/engine.go:1396-1406 | and every balance in every state of an in-budget run, with every bid level there is |

## Left out

- HTTP, JWT, middleware, configuration, metrics, logging, websockets and health checks: no effect on the state modelled.
- JSON, UUIDs and timestamps: identifiers are integers with zero for the empty string, fresh identifiers are arguments, trade identifiers come from a counter, and Outbox.Codec stands for the encoding and is asked to read back what it writes and nothing torn or glued, as balanced JSON objects do; envelopes are told apart by 64 bits. Identifiers that are not UUIDs, which the database worker rejects, do not occur.
- Pointers: an order is its fixed terms plus its mutable part in a map, and books hold identifiers. That an order is one object shared by map and book is built in.
- The history fields arrival, clock and inflight of the state have no counterpart in the code; they record when orders were added to a book and which orders are admitted and not yet matched.
- A position key is a triple; the concatenated string of ledger.go:78-84 could collide if identifiers contained a colon.
- Arithmetic is on mathematical integers. Bounds.RunFits says when 64 bits suffice; a request's own quantity times price, and the totals of ask levels, have no bound from the ledger.
- avg_price, DECIMAL ranges and the float reads of numericToInt64: rounding outside the integer core.
- The branches of matchOrder for a market or book that has disappeared are modelled but unreachable, since orders are admitted for known events only and markets are never removed.
- GET_OPEN_ORDERS and the other reads apart from depth.
- Partition routing: Stream lets any worker handle any command, so nothing depends on the hash.
- Consumer groups and XAUTOCLAIM: Delivery.AtLeastOnce lets first deliveries come in stream order and repeats at any later time; two database workers applying entries out of stream order are not modelled.
- Real time: a lease may expire at any moment, so nothing is said about liveness.
- runPartition and renewLease are modelled as steps on a shared state because other engines act between their statements; Fencing.PartitionOwner shows only the stretches without interference.
- The fence is read before the transaction starts; Fencing orders checks, not commits of workers that check at the same time.
- Disk errors while journaling, other than a crash in the middle of a write.
- Projection.LogProjects: stated for logs handled one command after the other with every publication succeeding, in budget, and users funded before their first order; Budget.MarketBuyCash, Funding.OrderBeforeFunding and Runs.RunCash say what happens otherwise.
- Window.CanceledInWindow: asks that a BUY's own lock is covered when it is canceled, which Runs.RunCash gives for in-budget runs; after an over-budget market BUY of the same user the ledger's clamp may return more than was reserved.
- CrashSafety.NeverLost: holds under crash-stop only; CrashSafety.LossExactlyWhen gives the condition when the process goes on after a Redis error.
- Restart.RebuildsExactlyWhen: one partition's log; several partitions are covered by Restart.StreamsDoNotCommute and Restart.TwoStreams only. A failed BUY that is submitted again under its identifier is covered when it locked something and both runs are in budget; Restart.ZeroLockRetry shows that without a lock the equivalence does not hold.
- Funding.AccountsExactlyWhen: a trade of the log is named as such; for a single order Funding.OrderBeforeFunding has the condition on the state before.
- Database.TablesAreFold: over trade deliveries; Delivery.DeliveryAgrees covers streams in which creations and cancellations are redelivered too.
