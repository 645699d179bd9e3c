# Verified model of the quant_execution trading engine

The engine buys when a tick arms a watchlist entry, holds the position in memory, and sells when the
target is reached or the market closes. Three threads share one position book and one table of
idempotency keys: the tick thread (`execute`, `check_exits`), the market-close liquidator
(`liquidate_all`) and, in live mode, the reconciler. Every durable write goes through a bounded
write-behind queue into the `trades` table, from which the book is rebuilt at start and the daily
P&L report is computed.

The model has two layers, and a proof that the second is an instance of the first.

* **The protocol** (`Lifecycle.dfy`) is a state machine cut at the engine's shared actions: one lock
  region, one enqueue, one broker or cash call, one field store per step. All threads interleave
  freely; the broker, the cash service and the clock answer as they please. `LifecycleInvariants.dfy`
  proves what each step keeps about one trade, `LifecycleSafety.dfy` what each step keeps about the key
  table and the write log, and `LifecycleTheorems.dfy` reads the safety properties off for every reachable
  state. `Counterexamples.dfy` holds seven concrete runs in which something expected fails.
* **The code** (`PositionBook.dfy`, `ExecutionService.dfy`, `PositionReconciler.dfy`, `AsyncDbWriter.dfy`,
  `Matching.dfy`, `Schedulers.dfy`, `Executor.dfy`, `DailyPnl.dfy`) keeps the source's form: classes with
  the source's fields, methods with its loops. `ExecutionService.Valid` says that the fields are those of a
  reachable state of the protocol: seen keys, attempts, write log, every position of the book, every order the
  broker and every hold call the cash service was asked for; and that no reconciler write overtook an
  EXIT_SUBMITTED, which calls made one after the other never let happen. Each method states which state it
  leads to.
* `Calls.dfy` and `Scripts.dfy` connect the two: an undisturbed call is a run of the protocol, so the
  safety properties hold after every call, and those that a race can break hold without condition
  (`RowsFollowTheBook`).

The other files: `Domain.dfy` (values), `IdempotencyKeys.dfy` (the key printer and parser), `Sizing.dfy`,
`TradesTable.dfy` (a table with a unique key), `Clients.dfy` (what broker and cash service remember),
`Rehydration.dfy` (what a start rebuilds), `Restarts.dfy` (runs that go on after restarts), `DailyPnlTheorems.dfy`,
`PaperLedger.dfy` (the ledger of a flat paper session), `PaperDay.dfy` (a paper day as the worker runs it),
`SessionClose.dfy` (what the liquidation leaves), `Outcomes.dfy` (what each call does to trades and rows, in plain
prices, sides and columns), `SharedTable.dfy` (paper and live rows in one table).

## Findings

Proved with a concrete run or with an exact condition:

* In live mode the exit order id is stored in the position before EXIT_SUBMITTED is enqueued, so the
  reconciler can write about an exit that is not logged yet. With no call in progress a row disagrees with the
  book, in its status or in the exit order it names, if and only if the exit id logged last was logged after
  the dead or filled end of its own order had been written, and no failed exit was logged since
  (`OnlyALateExitDisagrees`).
  * A closed trade is left at EXIT_SUBMITTED exactly when CLOSED was written while some stored exit id was
    still to be logged (`ClosedRowShowsClosed`); a restart brings the sold position back, and reports, which
    list CLOSED rows only, pass it over (`ClosedTradeLeftExiting`).
  * A row can name a dead exit order while the position's second exit is alive: status and book then agree and
    the order id does not (`DeadExitLoggedLast`).
  * The statuses logged for a trade walk the lifecycle graph if and only if the threads kept their turns: no fill
    of an exit was written while its own id was still to be logged (unless an ended one had been logged late in
    its place), and no exit id was logged after the sale, after a late one, or after that of the exit then out
    (`StatusesWalkTheLifecycle`; `FillStrays` and `LogStrays` say it in terms of where the threads stand).
* A partly filled exit order that is cancelled is retried for the whole position: a closed trade sold what
  it bought if and only if none of its cancelled exit orders was partly filled, and more otherwise
  (`ClosedTradeSellsWhatItBought`, `SoldMoreThanBought`).
* A live restart finds exactly the positions of the book if and only if none of their rows is at EXIT_FAILED and
  no sale was written while an exit id was still to be logged (`LiveRestartFindsPositions`); it rebuilds them
  as they were if and only if, besides, no exit id was logged late and the figures survive: a partial fill of
  a pending row is taken for the whole, and a zero for a missing figure (`LiveRestartRebuildsTheBook`).
* After a restart, paper or live, the next signal of a base is taken for a repetition if and only if a row of
  that base was rehydrated (`RestartDedupsIff`). Otherwise it goes ahead under the bare base as its key, and its
  row is refused exactly when a row of the base was ever written (`RestartKeyIsFreshIff`): so after a trade
  that was closed the same day (`ClosedSignalIsBoughtAgain`), and also while a position is open whose exit
  failed (`FailedExitIsForgotten`).
* A crash in the middle of a live call loses sight of orders. A row at CASH_HELD, which it is exactly while the entry
  order is about to be sent or sent and not logged, is rebuilt as a pending entry without an order id: no pass of
  the reconciler asks about it, its key stays taken and its hold is never settled (`HeldRowHasNoOrder`,
  `SentEntryIsForgotten`, `AsksAbout` in the contract of `Visit`). An exit sent and not logged is unknown to the
  rebuilt position (`UnloggedExitIsUnknown`, `SentExitIsForgotten`).
* Across any number of restarts that each rebuild the book, no two trades of one signal ever have a position at the
  same time, and exits, holds and cash are as safe as in one run (`OnePositionPerSignal`, `SafeAcrossRestarts`);
  which restarts those are is `RestoresIff`.
* Nothing is carried past the session, as the service's description puts it, on paper; live, the book is empty after
  the liquidation and one pass of the reconciler if and only if every pending entry is reported dead and every exit,
  sent now or before, was accepted and is reported filled (`SessionEndsFlatIff`): pending entries are not claimed
  (`LiquidationLeaves`). Ticks after the close still enter, and the liquidator does not run again on that date
  (`OncePerDay`).
* A retried exit is sent under the client order id of the dead one; no two trades share one (`ExitIdsReusedIff`).
* A CLOSED row that lands in the table only after the reports whose windows cover its closing time were made
  is in none of them (`ReportedIff`); a query that raises loses the report of its mode for that day, as the day
  already counts as done, and puts off the modes after it (`ReportsMadeIff`).
* The daily report windows leave no gap if and only if there was a report on every day (`NoGapIff`), and
  two consecutive windows overlap exactly when the first report was late (`CountedTwiceIff`): what closed
  in the overlap is counted twice.
* The shutdown flush empties the queue if and only if at most one batch was waiting (`Shutdown`).
* Two signals share a key base exactly when mode, date and `symbol:reason` agree, so a colon in a symbol
  can make two signals collide (`BaseKeyCollisions`, `ColonInSymbolCollides`).

Where code and documentation disagree the model follows the code: paper rows go NEW, FILLED, CLOSED
(the written lifecycle description has SUBMITTED and EXIT_SUBMITTED in between), CASH_HELD is followed by FAILED
rather than INSUFFICIENT_FUNDS, and no row is looked up by its key before it is inserted.

## Model

| member | source | states |
|---|---|---|
| IdempotencyKeys.NumeralRoundTrip | src/quant_execution/domain/services.py:69-76 | reading a printed attempt number gives the number back |
| IdempotencyKeys.SplitInvertsCompose | src/quant_execution/domain/services.py:63-77 | for every string and attempt, `split_attempt` inverts `compose_key` if and only if the attempt is positive or the string does not itself end in an attempt suffix |
| IdempotencyKeys.SplitAttemptOfSignal | src/quant_execution/domain/services.py:56-77 | keys built from signals always parse back, whatever the trigger reason contains |
| IdempotencyKeys.ComposedKeysInjective | src/quant_execution/domain/services.py:63-69 | two composed keys are equal if and only if base and attempt are |
| IdempotencyKeys.ExitKeysApart | src/quant_execution/domain/services.py:399 | exit client order ids are injective in the key and never equal an entry key |
| IdempotencyKeys.BaseKeyCollisions | src/quant_execution/domain/services.py:56-60 | exactly which pairs of signals share a base |
| IdempotencyKeys.BaseKeyInjective | src/quant_execution/domain/services.py:56-60 | with colon-free symbols a base names one mode, symbol, reason and date |
| IdempotencyKeys.ColonInSymbolCollides | src/quant_execution/domain/services.py:60 | without that, two different signals can share a base |
| Sizing.SizingIsLargestAffordable | src/quant_execution/domain/services.py:80-102 | a notional budget buys q shares if and only if q is the largest whole number it pays for |
| Sizing.NotionalIsSharesTimesPrice | src/quant_execution/domain/services.py:80-102 | an order is sized if and only if one rule is set and the price is positive; under either rule its notional is its shares times the price |
| Sizing.FixedQuantityIsWhole | src/quant_execution/domain/services.py:97-102 | a fixed quantity is cut to whole shares toward zero |
| Sizing.ZeroSharesIff | src/quant_execution/domain/services.py:97-102 | the order is for zero shares exactly when the budget is below the price |
| TradesTable.TransactSplit | src/quant_execution/repository/async_writer.py:116-125 | cutting a batch in two, the second part starts where the first ended and a failure of either fails both |
| TradesTable.KeysStayUnique | src/quant_execution/repository/models.py:114 | no transaction breaks the unique index |
| LifecycleInvariants.TradeStepKept | src/quant_execution/domain/services.py:206-566 | every step of every thread keeps the control, order, hold and book-trail invariants of a trade |
| LifecycleInvariants.SheetStepKept | src/quant_execution/domain/services.py:206-566 | every step of every thread keeps a trade's row and status history in line with where the threads stand: status, exit order id and its reason, broker order id, hold, fill figures and closing time |
| LifecycleSafety.StepKept | src/quant_execution/domain/services.py:186-216 | every event of the system keeps the key table, the write log and the table it amounts to consistent |
| LifecycleSafety.RunKept | src/quant_execution/domain/services.py:148-566 | so does every run from an empty start, under every interleaving |
| LifecycleTheorems.KeysIssuedInOrder | src/quant_execution/domain/services.py:192-216 | the keys issued for a base are attempts 0, 1, 2, ... without gap or repeat; their number is the attempt counter plus one if the current key is taken; no other key of the base is taken |
| LifecycleTheorems.ClientOrderIdsApart | src/quant_execution/domain/services.py:278-284 | no two trades share an entry or exit client order id, and no exit id is an entry id |
| LifecycleTheorems.ExitProtocolSafe | src/quant_execution/domain/positions.py:95-123 | at most one exit order of a trade is not dead; positions that are not exiting have none; two claims are separated by a release; a position leaves the book once, last, and its key is forgotten once, after that |
| LifecycleTheorems.HoldSettledOnce | src/quant_execution/domain/services.py:321-355 | a hold is placed at most once per trade, for exactly the shares asked for times the price that triggered them, and within the balance read; it is owned by someone still answerable, or was captured once because the entry filled, or released once because it did not |
| LifecycleTheorems.RowIsSized | src/quant_execution/domain/services.py:218-243 | the row's notional is its quantity times its trigger price; the order asks for that quantity and the hold is for that notional |
| LifecycleTheorems.CashConserved | src/quant_execution/domain/services.py:321-355 | over all trades, money put on hold is captured, released or still owed an answer |
| LifecycleTheorems.StatusesWalkTheLifecycle | src/quant_execution/domain/services.py:243-550 | the statuses logged for a trade are a path of the lifecycle graph if and only if no fill was written while its own exit id was still to be logged (and none late in its place), and no exit id was logged after the sale, after a late one, or after that of the exit then out; straying takes a race in live mode |
| LifecycleTheorems.TerminalIsLast | src/quant_execution/domain/enums.py:46-59 | a terminal status is the last one logged if and only if no exit id was logged after the sale; at rest, if and only if CLOSED was not written while an exit id was still to be logged |
| LifecycleTheorems.UnracedIsInTurn | src/quant_execution/domain/services.py:374-435 | without a race nothing is logged late or out of turn, and on paper there is no race |
| LifecycleTheorems.OnlyALateExitDisagrees | src/quant_execution/domain/services.py:418-425 | at rest, status, exit order id and exit reason of the row agree with the book if and only if the exit id logged last was not logged after its own end had been, or a failed exit was logged since |
| LifecycleTheorems.ClosedRowShowsClosed | src/quant_execution/domain/services.py:418-425 | the row of a closed live trade ends as CLOSED, or as EXIT_SUBMITTED exactly when CLOSED was written while an exit id was still to be logged; either way with the figures of the fill that closed it |
| LifecycleTheorems.ClosedTradeSellsWhatItBought | src/quant_execution/domain/services.py:547-550 | a closed trade never sold less than it bought, and sold exactly that if and only if no cancelled exit order had been partly filled |
| LifecycleTheorems.SidesFollowTheSignal | src/quant_execution/domain/enums.py:30-38 | a LONG is entered by a BUY and left by SELLs, a SHORT the other way round, at the broker and in the row |
| LifecycleTheorems.HoldingIsThePosition | src/quant_execution/domain/services.py:499-550 | counting bought shares plus and sold shares minus, the orders of an open position add up to its quantity, negative for a SHORT, and those of a closed trade to zero, if and only if no cancelled exit was partly filled; else past it in the direction of the exit |
| LifecycleTheorems.WritesNeverCollide | src/quant_execution/domain/services.py:210-243 | applied in order to an empty table, every insert meets a fresh id and key and every update an existing row |
| LifecycleTheorems.NoBatchFails | src/quant_execution/repository/async_writer.py:102-125 | however the log is cut into batches, none fails on the unique index |
| Counterexamples.ClosedTradeLeftExiting | src/quant_execution/domain/services.py:418-425 | a run that leaves a closed trade's row at EXIT_SUBMITTED, off the lifecycle graph; a restart then brings the sold position back |
| Counterexamples.DeadExitLoggedLast | src/quant_execution/domain/services.py:418-425 | a run that leaves a row naming a dead exit order while the second exit is alive |
| Counterexamples.SoldMoreThanBought | src/quant_execution/domain/services.py:547-550 | a run that buys ten shares and sells fourteen |
| Counterexamples.FailedExitIsForgotten | src/quant_execution/domain/services.py:42-49 | a run to a position whose row is at EXIT_FAILED: a restart selects nothing, and its signal is bought again with a refused row |
| Counterexamples.ClosedSignalIsBoughtAgain | src/quant_execution/domain/services.py:180-190 | a paper run that buys and closes: after a restart the same signal is bought again with a refused row |
| Counterexamples.SentEntryIsForgotten | src/quant_execution/domain/services.py:284-306 | a run to a working entry order whose row is at CASH_HELD: the restart rebuilds a pending entry without an order id |
| Counterexamples.SentExitIsForgotten | src/quant_execution/domain/services.py:401-418 | a run to a working exit order that the rebuilt position knows nothing of |
| Scripts.PlayRuns | src/quant_execution/domain/services.py:206-566 | what can be played on one trade can happen in the system, leaving the other trades alone |
| Calls.EntryPlays | src/quant_execution/domain/services.py:218-319 | the steps of `execute` lead to the stated trade and writes for every answer of cash service and broker |
| Calls.EntryRuns | src/quant_execution/domain/services.py:206-319 | an undisturbed `execute` is a run of the protocol |
| Calls.ExitRuns | src/quant_execution/domain/services.py:372-435 | so is `_submit_exit` |
| Calls.FillRuns | src/quant_execution/domain/services.py:499-525 | so is a reconciler visit to a pending entry |
| Calls.CloseRuns | src/quant_execution/domain/services.py:527-550 | so is a reconciler visit to an exit |
| Calls.ClaimsRun | src/quant_execution/domain/positions.py:95-117 | claiming any set of open positions at once is a run of single claims |
| PositionBooks.PositionBook.Len | src/quant_execution/domain/positions.py:69-71 | the sum over the buckets is the number of positions |
| PositionBooks.PositionBook.Open | src/quant_execution/domain/positions.py:78-81 | the flat map gains exactly this position, in the bucket of its symbol; the book stays an index if and only if the id was not filed under another symbol |
| PositionBooks.PositionBook.Remove | src/quant_execution/domain/positions.py:83-89 | the flat map loses exactly this id, and an emptied bucket goes; nothing happens if the id is not there or is filed under another symbol |
| PositionBooks.PositionBook.MarkOpen | src/quant_execution/domain/positions.py:91-93 | the position becomes OPEN, nothing else changes |
| PositionBooks.PositionBook.ReleaseExit | src/quant_execution/domain/positions.py:119-123 | the position becomes OPEN without exit id, nothing else changes |
| PositionBooks.PositionBook.ClaimExits | src/quant_execution/domain/positions.py:95-106 | exactly the open positions of the symbol with a target that the price is at or beyond, above for a LONG and below for a SHORT, become EXITING and are returned, each once |
| PositionBooks.PositionBook.ClaimAllOpen | src/quant_execution/domain/positions.py:108-117 | exactly the open positions become EXITING and are returned, each once |
| PositionBooks.PositionBook.PendingAndExiting | src/quant_execution/domain/positions.py:125-133 | exactly the positions that are not open, each once |
| ExecutionServices.ExecutionService.constructor | src/quant_execution/domain/services.py:151-174 | a new service is in the protocol's initial state |
| ExecutionServices.ExecutionService.Create | src/quant_execution/domain/services.py:151-174 | refused exactly for a live service without a cash client; else a new service in the initial state |
| ExecutionServices.ExecutionService.Seed | src/quant_execution/domain/services.py:180-190 | the loop computes the seeded key table |
| ExecutionServices.ExecutionService.Forget | src/quant_execution/domain/services.py:192-198 | the key is dropped and its base moves to the next attempt |
| ExecutionServices.ExecutionService.RecordPrice | src/quant_execution/domain/services.py:200-202 | only the last price of the symbol changes |
| ExecutionServices.ExecutionService.ReserveCash | src/quant_execution/domain/services.py:321-347 | a hold is placed if and only if the balance is read and covers the notional and the hold is granted; each way out logs its own status |
| ExecutionServices.ExecutionService.Execute | src/quant_execution/domain/services.py:206-319 | nothing happens if the key is taken; else the state is the one the protocol reaches for these answers, fields, book, log, orders and holds are those of that state, and the table gains exactly the row of the signal: every column, the side of the order, the hold, and INSUFFICIENT_FUNDS if and only if a balance was read that is below the value of the shares |
| Outcomes.EntryOutcome | src/quant_execution/domain/services.py:218-319 | the trade, its orders and hold, and every column of its row, for each answer of cash service and broker; no other row changes |
| ExecutionServices.ExecutionService.SubmitExit | src/quant_execution/domain/services.py:372-435 | the state after the exit of one claimed position, paper or live, accepted or refused |
| ExecutionServices.ExecutionService.CheckExits | src/quant_execution/domain/services.py:359-362 | exactly the open positions of the symbol with a target that the price is at or beyond, above for a LONG and below for a SHORT, go through their exit; their rows carry that price on paper; every other trade and row is unchanged |
| Outcomes.TargetOutcome | src/quant_execution/domain/positions.py:53-59 | which trades and rows a tick changes, and into what |
| ExecutionServices.ExecutionService.LiquidateAll | src/quant_execution/domain/services.py:364-370 | every open position, and nothing else, goes through its exit; on paper its row carries the last price of its symbol, or else its own entry price, and the book is empty afterwards; the count is right |
| Outcomes.LiquidationOutcome | src/quant_execution/domain/services.py:364-370 | which trades and rows the liquidation changes, into what and at what price |
| ExecutionServices.ExecutionService.RowsFollowTheBook | src/quant_execution/domain/services.py:206-566 | after any calls a trade's statuses are a path of the lifecycle graph, a terminal one last, and at rest its row agrees with the book, exit order id included |
| ExecutionServices.ExecutionService.ExitIdsReusedIff | src/quant_execution/domain/services.py:399-406 | two exit orders carry the same client order id if and only if they are exits of the same trade |
| ExecutionServices.ExecutionService.NothingLostIff | src/quant_execution/repository/async_writer.py:86-90 | nothing was lost if and only if no batch failed and the backlog never outgrew the queue |
| ExecutionServices.ExecutionService.NextBatchApplies | src/quant_execution/repository/async_writer.py:102-125 | with nothing lost so far, which is exactly when no batch failed and the backlog never outgrew the queue, the next batch of the service's writer applies, whatever its size |
| ExecutionServices.ExecutionService.DrainedTableIsTheLog | src/quant_execution/repository/async_writer.py:92-125 | with nothing lost and the queue drained, the table is what the protocol's log amounts to |
| PositionReconcilers.PositionReconciler.ApplyEntry | src/quant_execution/domain/services.py:499-525 | writes, book and hold calls for each order status |
| PositionReconcilers.PositionReconciler.ApplyExit | src/quant_execution/domain/services.py:527-550 | writes, book and key table for each order status |
| PositionReconcilers.PositionReconciler.VisitEntry | src/quant_execution/domain/services.py:475-481 | the service is in the state the protocol reaches by this visit |
| PositionReconcilers.PositionReconciler.VisitExit | src/quant_execution/domain/services.py:482-488 | likewise for an exit |
| PositionReconcilers.PositionReconciler.ReconcileOnce | src/quant_execution/domain/services.py:471-490 | one pass visits exactly the pending and exiting positions the broker answers about, each once, leaves all other trades and rows alone and returns their number; each visited trade and row is what the reported status makes of it |
| PositionReconcilers.PassOutcome | src/quant_execution/domain/services.py:471-550 | which trades and rows a pass changes, and into what |
| AsyncDbWriters.AsyncDbWriter.Enqueue | src/quant_execution/repository/async_writer.py:86-90 | the write is appended, or dropped exactly when the queue is full; accepted writes stay flushed batches followed by the queue |
| AsyncDbWriters.AsyncDbWriter.CollectBatch | src/quant_execution/repository/async_writer.py:102-114 | the batch is the front of the queue, of the size the loop allows |
| AsyncDbWriters.AsyncDbWriter.Flush | src/quant_execution/repository/async_writer.py:116-125 | the table becomes the whole batch applied, or stays when any write or the database fails |
| AsyncDbWriters.AsyncDbWriter.DrainOnce | src/quant_execution/repository/async_writer.py:94-97 | the table stays the committed batches applied in order |
| AsyncDbWriters.AsyncDbWriter.Shutdown | src/quant_execution/repository/async_writer.py:98-100 | everything accepted was flushed if and only if at most one batch was waiting |
| AsyncDbWriters.BatchingIsTransparent | src/quant_execution/repository/async_writer.py:102-125 | without failed batches, batching makes no difference |
| Matching.IndexAgreesWithScan | src/quant_execution/domain/matching.py:59-64 | looking up by symbol first finds what a scan of the list finds, in its order |
| Matching.MatchesAreArmed | src/quant_execution/domain/matching.py:32-35 | an entry is matched if and only if it is loaded, of that symbol, and the price is at or below its buy price for a LONG, at or above for a SHORT, give or take the tolerance |
| Matching.WiderToleranceAdds | src/quant_execution/domain/matching.py:32-35 | a wider tolerance only adds matches |
| Matching.WatchlistStore.Replace | src/quant_execution/domain/matching.py:45-50 | the snapshot is the list cut up by symbol |
| Matching.WatchlistStore.Match | src/quant_execution/domain/matching.py:59-64 | the entries of the list that the tick triggers, in order |
| Matching.WatchlistStore.Len | src/quant_execution/domain/matching.py:52-53 | as many entries as the list has |
| Rehydration.RestartRebuildsTheBook | src/quant_execution/workers/executor.py:91-104 | in paper mode, with all writes flushed and no call in progress, the selected rows rebuild exactly the book |
| SharedTable.EachModeRebuildsItsBook | src/quant_execution/repository/trades_repo.py:94-104 | in a table shared by a paper and a live state, a paper start rebuilds exactly the paper book, and a live start exactly the live book under the condition of a live restart |
| SharedTable.EachModeReportsItsRows | src/quant_execution/repository/trades_repo.py:106-121 | the report of a mode over a shared table is the report over its own rows |
| SharedTable.AnyTwoCanShare | src/quant_execution/repository/models.py:114 | any paper and any live state at rest can share a table, under ids that are apart |
| Rehydration.RestartDedupsIff | src/quant_execution/domain/services.py:180-190 | in any reachable state of either mode and for any seeded rows, the next signal of a base is taken for a repetition if and only if a row of that base was among them |
| Rehydration.RestartDedups | src/quant_execution/domain/services.py:180-190 | after a restart the next key of a rehydrated base is the position's own, and taken |
| Rehydration.RestartDedupsOpenPositions | src/quant_execution/domain/services.py:180-190 | on paper that is so for every base with an open position |
| Rehydration.RestartKeyIsFreshIff | src/quant_execution/domain/services.py:180-190 | in either mode, without a rehydrated row of its base the next signal goes ahead under the bare base, and its row is refused if and only if a row of the base was ever written |
| Rehydration.LiveRestartFindsPositions | src/quant_execution/domain/services.py:42-49 | for every live state at rest, the restart finds exactly the book's positions if and only if no row of a position is at EXIT_FAILED and no sale was written while an exit id was still to be logged |
| Rehydration.LiveRestartRebuildsTheBook | src/quant_execution/domain/services.py:124-145 | it rebuilds them as they were if and only if, besides, no exit id was logged late and the fill figures survive |
| Rehydration.HeldRowHasNoOrder | src/quant_execution/domain/services.py:124-145 | at any moment a live row is at CASH_HELD exactly while its entry order is about to be sent or sent and not logged; it is then rebuilt as a pending entry with its hold and key but no order id |
| Rehydration.UnloggedExitIsUnknown | src/quant_execution/domain/services.py:418-425 | at any moment before the first exit id is logged, the rebuilt position has none, whatever was sent |
| Rehydration.SeedRestores | src/quant_execution/domain/services.py:180-190 | seeding keys still held takes exactly those keys, restores their attempts, and starts no other counter |
| Restarts.OnePositionPerSignal | src/quant_execution/domain/services.py:180-216 | across any number of restarts that rebuild the book, under every interleaving between them, no two trades of one base have a position at the same time, and the signal of one that has is taken for a repetition |
| Restarts.SafeAcrossRestarts | src/quant_execution/workers/executor.py:91-104 | across such restarts exit protocol, holds and cash are as safe as in one run |
| Restarts.RestoresIff | src/quant_execution/workers/executor.py:91-104 | which restarts of a run rebuild the book: all on paper, live those without late exits or closes, failed exits and lost figures |
| Executor.RehydratePositions | src/quant_execution/workers/executor.py:91-104 | the loop fills the book with the rebuilt positions, all of them from rows of its own mode in a rehydrated status, and seeds their keys; if the query raises, the book stays empty and nothing is seeded |
| Executor.ProcessMessage | src/quant_execution/workers/executor.py:67-88 | price, then every match in order up to a sizing error, then every exit the price triggers, including that of a position just opened; while the watchlist's targets lie beyond the band, every trade is armed within the store's tolerance |
| Executor.EnterMatches | src/quant_execution/workers/executor.py:86-87 | the matches are entered one after the other, up to the first that raises |
| Executor.SignalIgnoredIff | src/quant_execution/domain/services.py:212-216 | in every reachable state a signal does nothing if and only if some trade of its base has not been forgotten |
| DailyPnl.ComputeDailyPnl | src/quant_execution/domain/pnl.py:76-133 | the one-pass loop computes each figure of the report by its own definition |
| DailyPnl.QuantizeNearest | src/quant_execution/domain/pnl.py:33-38 | rounding is to the nearest multiple of the unit, ties to the even one |
| DailyPnl.QuantizeMonotone | src/quant_execution/domain/pnl.py:36-38 | rounding keeps order |
| DailyPnl.QuantizeExact | src/quant_execution/domain/pnl.py:36-38 | rounding changes nothing exactly on multiples of the unit |
| DailyPnlTheorems.ReportIsOrdered | src/quant_execution/domain/pnl.py:76-133 | stored wins, losses and even trades add up; loss and win figures are ordered around zero; the win rate is a percentage |
| DailyPnlTheorems.RowFigures | src/quant_execution/domain/pnl.py:64-73 | which rows count, and what P&L, investment and proceeds of a row are, including which quantity stands in for an unknown one |
| DailyPnlTheorems.ReportCounts | src/quant_execution/domain/pnl.py:76-133 | trades, wins, losses, even trades and symbols are numbers of rows and symbols; the money figures are sums over the rows |
| DailyPnlTheorems.ReportRates | src/quant_execution/domain/pnl.py:110-113 | win rate and return are the wins per trade and the P&L per money put in, in percent, up to rounding; zero without trades or investment |
| DailyPnlTheorems.ReportAverages | src/quant_execution/domain/pnl.py:112-113 | the averages are the gains per win and the losses per loss, up to rounding |
| DailyPnlTheorems.ReportPeaks | src/quant_execution/domain/pnl.py:100-105 | the largest win and loss are those of some row or zero, and no row goes beyond them |
| DailyPnlTheorems.StoredFiguresReconcile | src/quant_execution/domain/pnl.py:110-133 | rounding pulls realized P&L and the averages apart by at most half a unit per winning or losing trade and one for the total |
| DailyPnlTheorems.ReportIgnoresOrder | src/quant_execution/domain/pnl.py:76-133 | permuted trades give the same report |
| DailyPnlTheorems.PnlIsCashResult | src/quant_execution/domain/pnl.py:64-73 | a trade that sold what it bought has its cash result as P&L |
| PaperLedger.FlatPaperRow | src/quant_execution/domain/services.py:374-397 | with nothing left in the book every entered paper trade has a CLOSED row that sold what it bought |
| PaperLedger.PaperSessionBalances | src/quant_execution/domain/pnl.py:76-133 | the report of a flat paper session counts every entered trade, and its realized P&L is the cash result |
| PaperLedger.TargetExitsNeverLose | src/quant_execution/domain/positions.py:53-59 | a losing paper trade armed within the tolerance, with its target beyond the band, was closed by the market-close liquidation |
| PaperLedger.LosersWereLiquidated | src/quant_execution/domain/pnl.py:76-133 | with all trades armed within the tolerance and all targets beyond the band, every losing row of a paper report was closed by the market-close liquidation |
| PaperDays.PaperDayLedger | src/quant_execution/workers/executor.py:67-88 | with the book empty and the queue drained without loss, the table holds one closed row per entered trade, sold as bought; any report that lists them counts them all, its realized P&L is their cash result, and if all trades were armed with targets beyond the band every loser was liquidated |
| PaperDays.PaperDay | src/quant_execution/workers/executor.py:67-88 | from a service that has lost nothing, all messages of a day, the liquidation and the writer's turns among and after them end with an empty book, a drained queue and that ledger, unless the database failed or the backlog outgrew the queue; every row liquidated that day carries the price of the last message for its symbol, else the price kept before, else its entry price |
| PaperDays.Turn | src/quant_execution/repository/async_writer.py:92-97 | a turn of the writer loses nothing unless the database fails |
| Schedulers.OncePerDay | src/quant_execution/domain/services.py:595-610 | with a clock that never goes back a day, the work is done exactly once on each date with a reading at or after the trigger, and on no other |
| Schedulers.NoGapIff | src/quant_execution/domain/pnl.py:184-190 | the report windows miss no closing time between the first and the last report if and only if there was one every day |
| Schedulers.CountedTwiceIff | src/quant_execution/domain/pnl.py:184-190 | consecutive windows overlap if and only if the first report was late |
| Schedulers.ReportListsSince | src/quant_execution/domain/pnl.py:182-190 | a report lists the closed rows of its mode that closed that day up to it, or the day before after the close time, and no other |
| Schedulers.ReportedIff | src/quant_execution/domain/pnl.py:182-190 | with a report every day, each querying its own table, a closed trade is in some report if and only if its row landed before a report whose window still starts before the closing time |
| Schedulers.MarketCloseLiquidator.MaybeLiquidate | src/quant_execution/domain/services.py:595-610 | liquidates exactly when due, and on paper leaves an empty book |
| SessionClose.LiquidationLeaves | src/quant_execution/domain/services.py:364-370 | on paper nothing remains; live an open position is exiting on a new order for all of it, or open as before if refused, and every other one is untouched |
| SessionClose.SessionEndsFlatIff | src/quant_execution/domain/services.py:364-370 | the book is empty after liquidation and one reconciler pass if and only if every pending entry is reported dead and every exit accepted and reported filled |
| Schedulers.WatchlistRefresher.MaybeRefresh | src/quant_execution/domain/matching.py:102-111 | reloads exactly when due; the day counts as done even if the fetcher raised |
| Schedulers.WatchlistRefresher.Startup | src/quant_execution/domain/matching.py:113-130 | loads once, and a start at or after the open time counts for the day |
| Schedulers.DailyPnlReporter.MaybeReportMode | src/quant_execution/domain/pnl.py:174-190 | exactly when due, computes and stores the report of the window; a raising query is an error that leaves the day marked |
| Schedulers.DailyPnlReporter.MaybeReport | src/quant_execution/domain/pnl.py:164-172 | every mode of the schedule in turn, up to the first whose query raises, whose results are lost |
| Schedulers.ReportsMadeIff | src/quant_execution/domain/pnl.py:164-191 | a mode counts as done if and only if it was due and no query before it raised, and then its report is stored unless its own query raised |

## Left out

- HTTP clients, retries, JSON validation, Kafka, SQL sessions, migrations, web routes, settings and logging: input and output. Broker and cash service are answers chosen freely, subject to a filled or dead order staying so; a query result is any listing of at most `limit` matching rows that leaves one out only when the limit is reached.
- ExecutionServices.ExecutionService.Execute: the methods are single undisturbed calls; what happens when calls of several threads interleave is stated by the protocol's theorems, not by the method contracts.
- PositionBooks.PositionBook.ClaimExits: the lock itself is not modelled; a lock region is one step of the protocol. Buckets are visited in any order, so the order of the returned positions is left open.
- ExecutionServices.ExecutionService.LiquidateAll: the reason is always MARKET_CLOSE, the default and the only one passed.
- The theorems about the unique index are of a table that one service writes; that the keys of the two modes differ is `BaseKeyCollisions`, and two services writing to one table are not interleaved.
- Trade ids are counters in the order of claims instead of random UUIDs, and broker order ids name the trade they belong to; both stand for ids that never repeat. A hold is named after its trade; a capture or release counts when it is attempted, as the engine only logs its failure.
- Reading the balance and placing the hold are one step of the protocol, since nothing the engine does comes between them.
- Executor.RehydratePositions: fills an empty book and key table. Of runs that go on after a restart `Restarts.dfy` states what is safe as long as each restart rebuilds the book; the theorems about keys, rows and the table are of runs from an empty system, since after a restart a key can be claimed again.
- A BrokerError or CashServiceError is taken to mean that nothing happened on the other side. The Alpaca client repeats a POST after a transport error, so an order the broker took can still end in a BrokerError; the exit and hold theorems do not cover that order.
- Schedulers.DailyPnlReporter.MaybeReport: the polling loops around it and the other schedulers are not modelled.
- Decimals are exact reals: the 28-digit context, the Numeric(20, 8) columns and the overflow error of `quantize` are not modelled; only the report's own rounding is.
- Dates are ten characters of digits and hyphens and instants are integers: time zones, daylight saving, `parse_close_time` and `shift_earlier` are not modelled.
- IdempotencyKeys.SplitInvertsCompose: `isdigit` is modelled on ASCII text; the 200-character limit of the key column is not modelled.
- Timestamps other than `closed_at`, error texts, provenance columns and `source_query_id` are not modelled; nothing reads them.
- Exceptions other than BrokerError, CashServiceError, the sizing error and a failed batch are not modelled.
- `update_status`, `exists_by_idempotency_key`, `list_history` and `OrderIntent`: not used by the lifecycle.
