# Secwager: verified core

Secwager is an exchange for binary sports contracts.  This project models, in Dafny, the parts of it
where a mistake costs money, and proves what they promise.

* **The matching engine** (`OrderBook.dfy`).  `OrderBook` is a class over arrays, as in the source: a
  slot pool, one linked queue per price and side threaded through the pool, lazy deletion, and two
  price cursors that only bound the best prices.  `PriceTime.dfy` is the reference it is proved
  against: two plain lists in priority order, matched greedily.  `Levels`, `LevelSteps`, `BookRep` and
  `BookImport` hold the representation invariant and what each change of the storage does to the two
  lists; `BookFacts`, `PriorityRule`, `OrderOutcomes`, `BestPrices`, `TradeHistory` and
  `ReportAccounts` hold what follows about matching, single calls and whole runs.
* **The market service** (`MarketLog`, `MessageOutcomes`, `MarketRecovery`, `MarketService`, `BookWire`,
  `EngineReplay`, `EngineRecovery`).  Snapshot, load, silent replay, live processing and crashes over a log that only
  grows, as a transition system, with the service's own loops beside it.
* **The cashier's ledger** (`Ledger`, `Cashier`, `Postings`, `LedgerHistory`, `LedgerReplies`).  Every transaction is
  one atomic step on the account, escrow and key tables; a violated row constraint aborts it.  A
  release is two steps, because its first read is not locked.
* **The Bitcoin deposit protocol** (`DepositKeys`, `DepositTable`, `DepositProtocol`, `DepositSafety`,
  `DepositDepth`, `DepositLimits`, `DepositTracking`, `Watcher`).  Watcher, deposit rows and cashier as one transition
  system in which any call may fail, any answer and any mark may be lost, and users act in between.
* **Instruments** (`Instruments`, `InstrumentLaws`, `InstrumentIds`).  The checks across legs and the
  order-independent ids.

## What the code does where its comments say otherwise

* `OrderAccepted` carries the fills of the sweep that preceded it (matchengine/book.go:143-150),
  although matchengine/types.go:17 says it has none.  `PriorityRule.AcceptanceCarriesFillsIff` says
  exactly when there are any.
* An order of size 0 gets an id, produces no event and leaves an inactive slot
  (matchengine/book.go:85-155); a later cancel of that id is answered "already filled"
  (`PriorityRule.EmptyOrderIsSilent`).
* Replay is silent, so a message that arrives while the service is down is never published
  (market/internal/service/service.go:69-143): `MarketRecovery.ArrivedWhileDown` is such a run for every
  message, and `MarketRecovery.PublishableIff` says exactly which messages still can be published.
* `Escrow` checks the funds before it notices a repeated order id (cashier/internal/postgres_cashier.go:105-135),
  so a retry can be refused although the first attempt succeeded: `LedgerHistory.RetriedEscrowRefused` is
  such a run, and `LedgerHistory.EscrowAgainIff` is the exact condition.
* A disconnect deletes rows that are not marked escrowed because the cashier "was never notified"
  (btcwatcher/internal/txstore.go:137).  When the mark was lost the cashier has been notified, and the
  escrow loses its row: `DepositTracking.OrphanIsReachable` is such a run for every output, and
  `DepositTracking.TrackedIff` says exactly which step does it.
* A release that read its entry before another release ended, and commits after the order id was escrowed
  again, leaves escrow without an entry (`LedgerHistory.ReusedOrderBreaksLedger`,
  `LedgerHistory.ReleaseIsExactIff`).
* Confirm and cancel exclude each other only under three assumptions, each of which is needed
  (`DepositLimits.ExclusionIff`).
* The check for contradicting legs accepts "more than 5" beside "less than 3"
  (registry/internal/validate.go:108-120); `InstrumentLaws.AcceptedPossibleIff` says exactly which
  accepted instruments can never pay.

## Model

| member | source | states |
|---|---|---|
| MatchEngine.OrderBook.constructor | matchengine/book.go:37-50 | A new engine satisfies the representation invariant and denotes the empty book. |
| MatchEngine.OrderBook.Reset | matchengine/book.go:43-50 | All slots, levels and cursors are blank again. |
| MatchEngine.OrderBook.BestBid | matchengine/book.go:352-363 | The scan from the cursor down returns the price of the first bid of the sorted list: the true best bid, or 0. |
| MatchEngine.OrderBook.BestAsk | matchengine/book.go:365-376 | The scan from the cursor up returns the true best ask, or 0. |
| MatchEngine.OrderBook.BestBidQty | matchengine/book.go:378-390 | The unbounded sum of the active sizes at the best bid, modulo 2^32. |
| MatchEngine.OrderBook.BestAskQty | matchengine/book.go:392-404 | The unbounded sum of the active sizes at the best ask, modulo 2^32. |
| MatchEngine.OrderBook.Alloc | matchengine/book.go:406-419 | Takes the next slot, and changes neither list of resting orders. |
| MatchEngine.OrderBook.SkipInactive | matchengine/book.go:431-438 | Moves a level's head to its first active node, clearing the level when there is none. |
| MatchEngine.OrderBook.SkipFront | matchengine/book.go:88-89 | Unlinking stale nodes keeps the invariant and changes neither list. |
| MatchEngine.OrderBook.Trade | matchengine/book.go:96-126 | One fill: both slots, without overflow, and both reports. |
| MatchEngine.OrderBook.TradeFront | matchengine/book.go:94-135 | A fill with the head of a level, which is unlinked when used up. |
| MatchEngine.OrderBook.TakeFront | matchengine/book.go:94-135 | That fill is one trade with the front of the opposite sorted list. |
| MatchEngine.OrderBook.SweepFront | matchengine/book.go:86-136 | One round of the loop, whichever branch it takes, is at most one trade of the reference and makes progress in (levels left, nodes left, size left). |
| MatchEngine.OrderBook.SweepAsks | matchengine/book.go:86-136 | The loop terminates and is the reference sweep over the sorted asks. |
| MatchEngine.OrderBook.SweepBids | matchengine/book.go:158-210 | The loop terminates and is the reference sweep over the sorted bids. |
| MatchEngine.OrderBook.Enqueue | matchengine/book.go:421-429 | Appends a node to a level. |
| MatchEngine.OrderBook.Rest | matchengine/book.go:138-155 | A remainder is inserted into its list behind its price, with an `OrderAccepted`; a used-up order is retired. |
| MatchEngine.OrderBook.MatchBuy | matchengine/book.go:85-155 | Book and events are those of the reference match. |
| MatchEngine.OrderBook.MatchSell | matchengine/book.go:157-229 | Book and events are those of the reference match. |
| MatchEngine.OrderBook.AppendBBOIfChanged | matchengine/book.go:440-447 | Appends an event exactly when the 32-bit top changed; `BestPrices.OfferIsTrueIff` says what the event shows. |
| MatchEngine.OrderBook.Limit | matchengine/book.go:54-83 | Id, events and resulting resting orders equal those of the reference matcher, rejections included, and the invariant is kept. |
| MatchEngine.OrderBook.Withdraw | matchengine/book.go:245-263 | Lazy deletion and tightening the cursor remove exactly that order from the lists. |
| MatchEngine.OrderBook.Cancel | matchengine/book.go:232-274 | Events and resulting resting orders equal those of the reference matcher, for resting, filled, cancelled and unknown ids. |
| MatchEngine.OrderBook.Snapshot | matchengine/book.go:277-316 | The exported state is the book in priority order, without stale nodes. |
| MatchEngine.OrderBook.Restore | matchengine/book.go:319-350 | Any state is imported safely, and one that stands for a book gives a valid engine with exactly that book. |
| BookFacts.ExecuteKeepsWellFormed | matchengine/book.go:54-274 | Every command keeps both lists sorted by price and id, every size positive and within 32 bits, and no bid at or above an ask. |
| BookFacts.SweepLeftover | matchengine/book.go:86-136 | A sweep leaves a suffix of the opposite list with at most its first order part-filled, and stops with a remainder only when the best order left is beyond the limit. |
| BookFacts.WrappedDetectsChange | matchengine/book.go:440-447 | For tops less than a word apart, comparing reduced quantities decides equality of the true ones. |
| BookFacts.MatchedTops | matchengine/book.go:71-81 | A new order changes a level whose price stayed best by less than 2^32. |
| BookFacts.CancelTops | matchengine/book.go:245-273 | So does a cancel. |
| BookFacts.ReportIsExact | matchengine/book.go:440-447 | The 32-bit comparison emits a `BBOEvent` exactly when the unbounded top of book changed. |
| BestPrices.TopIsTrue | matchengine/book.go:352-404 | The top of every well-formed book is the highest price of any bid and the lowest of any ask, each with the sum of the sizes at it, or zeros on an empty side. |
| BestPrices.OfferIsTrueIff | matchengine/book.go:440-447 | Every command reports the true top of the book it leaves, each quantity modulo 2^32, if and only if the price or the quantity of either side differs from the top it found, and at most once. |
| OrderOutcomes.RefusedIff | matchengine/book.go:55-69 | An order is refused if and only if it has no price or no id is left; nothing changes, and the only report gives the reason. |
| OrderOutcomes.OrderIsAccepted | matchengine/book.go:71-83 | Any other order takes the next id with its own side, price, size and name; the other side only loses from its front; fills are at agreed prices; a remainder rests on its own side; the reports are the trades in order, the acceptance of a remainder, the top. |
| OrderOutcomes.SweepReportsInOrder | matchengine/book.go:96-126 | Each trade gives two reports, the resting order's first, each with the trade as its last fill and the right quantities filled and remaining. |
| OrderOutcomes.CancelRemoves | matchengine/book.go:247-263 | After a cancel the order rests nowhere and every other order is as it was. |
| OrderOutcomes.CancelReportsOrder | matchengine/book.go:265-273 | Cancelling a resting order reports its own fills and what was left of it. |
| OrderOutcomes.CancelRefused | matchengine/book.go:233-243 | Any other cancel changes nothing and is refused with a reason that says whether the id was ever given out. |
| PriorityRule.SweepByPriority | matchengine/book.go:86-136 | The sweep in closed form: the i-th order of the list trades its size limited by what the better ones leave, at its own price and in list order. |
| PriorityRule.LimitFillsByPriority | matchengine/book.go:85-229 | For every book and order: best price first, lowest id first within a price, and the remainder is the size beyond everything inside the limit. |
| PriorityRule.AcceptanceCarriesFillsIff | matchengine/book.go:138-150 | The acceptance of a remainder carries fills if and only if some resting order was inside its limit. |
| PriorityRule.EmptyOrderIsSilent | matchengine/book.go:54-155 | An order of size 0 takes an id without any event, and its cancel is refused as already filled. |
| TradeHistory.RunConsistent | matchengine/book.go:93-135 | In every run, two orders report the same trades with each other and at most one; fills are inside both limits; every order rests with its fills and its remaining size adding up, was cancelled with its fills and the cancelled rest adding up, or is completely filled. |
| ReportAccounts.EveryReportAccounts | matchengine/book.go:104-126 | In every run, each report but a rejection is about a submitted order, its fills sum to its filled quantity, and that and the remaining quantity sum to the order's size. |
| ReportAccounts.NeverOverfilled | matchengine/book.go:96-102 | No order, resting, filled or cancelled, ever trades more than its size. |
| TradeHistory.EveryFillHasOneCounterpart | matchengine/book.go:96-102 | Each fill reported in any run has exactly one counterpart, with equal price and quantity, in the other order's reports. |
| TradeHistory.BoughtIsSold | matchengine/book.go:96-102 | In every run, the total reported bought equals the total reported sold. |
| EngineReplay.Submit | matchengine/book.go:54-274 | One command on an engine is one step of the reference matcher. |
| EngineReplay.Replay | matchengine/book.go:54-274 | A whole command sequence on an engine gives the book and the events of the reference matcher. |
| EngineReplay.RestoredIsIndistinguishable | matchengine/book.go:277-350 | An engine full of stale nodes and a new one restored from its snapshot both answer every later command sequence as the reference matcher does from the original's book, and end with the same book. |
| BookWire.MarshalBookState | market/internal/service/snapshot.go:22-52 | The loops build the stored form: each order's own id, price, size, filled quantity and fills, its side as "B" or "S", its name without padding. |
| BookWire.UnmarshalBookState | market/internal/service/snapshot.go:54-86 | The loops rebuild a state from any stored form: the stored fields, prices modulo 65536, names cut or padded to 8 bytes, Sell for "S" and Buy for anything else. |
| BookWire.StateRoundTrip | market/internal/service/snapshot.go:22-86 | Reading back what was stored gives the same state, fills included. |
| BookWire.ExecuteStorable | market/internal/service/service.go:162-176 | Every command keeps the book storable without loss. |
| MarketLog.LogSound | market/internal/service/service.go:153-176 | After any log all books are well formed and storable. |
| MarketLog.SymbolsAreIndependent | market/internal/service/service.go:162-178 | A symbol's book after any log is that of its own messages alone. |
| MarketLog.ReportsAreIndependent | market/internal/service/service.go:162-190 | So are the reports of each message. |
| MessageOutcomes.SubmitOutcome | market/internal/service/service.go:162-176 | A submit message is refused or settles on its symbol's book as an order with the message's side and size, its price modulo 65536 and the first eight bytes of its name, and is reported as that order. |
| MessageOutcomes.CancelOutcome | market/internal/service/service.go:175-176 | After a cancel request the order with that id rests nowhere on the symbol's book, and every other order is as it was. |
| MessageOutcomes.CancelAnswer | market/internal/service/service.go:175-176 | A cancel request is answered with the cancelled order, or with why there is none. |
| MessageOutcomes.OtherOutcome | market/internal/service/service.go:153-164 | A message without a command opens its symbol's book at most, one that cannot be read does nothing, and neither is reported. |
| MarketRecovery.SaveLoad | market/internal/service/snapshot.go:89-133 | Loading what was saved gives the offset and every book back. |
| MarketRecovery.StepKeeps | market/internal/service/service.go:69-143 | Append, start, replay, live message, flush, stop and crash at any point keep the recovery invariant. |
| MarketRecovery.RecoveryIsExact | market/internal/service/service.go:69-143 | In every run the running books are those of the whole log so far, the disk is a snapshot of the log, and published reports are those of an uninterrupted service, in log order. |
| MarketRecovery.PublishedAtMostOnce | market/internal/service/service.go:69-190 | No offset is published twice, by one incarnation or by two. |
| MarketRecovery.ReportsAreComplete | market/internal/service/service.go:178-190 | In every run each report is complete, except for the last one of an incarnation that crashed. |
| MarketRecovery.SnapshotKeepsUp | market/internal/service/service.go:138-142 | A live service has everything on disk after the next full period of messages whose snapshot is written. |
| MarketRecovery.CountIsShort | market/internal/service/service.go:124-142 | In every run the messages since the last flush are fewer than a period. |
| MarketRecovery.StopLosesNothing | market/internal/service/service.go:128-131 | After an orderly stop and a restart nothing is left to replay. |
| MarketRecovery.MissedForever | market/internal/service/service.go:109-118 | A message passed silently is never published later. |
| MarketRecovery.PublishableIff | market/internal/service/service.go:105-143 | An unpublished message can still be published if and only if a running service has it beyond its replay mark or its live offset. |
| MarketRecovery.ArrivedWhileDown | market/internal/service/service.go:105-118 | For every message: a run in which it arrives while the service is down, is processed, and is published in no continuation. |
| MarketServer.MarketService.BookFor | market/internal/service/service.go:260-267 | The symbol's book, created empty on first use. |
| MarketServer.MarketService.DispatchMessage | market/internal/service/service.go:153-190 | Processes one message; its events come out only when live. |
| MarketServer.MarketService.Persist | market/internal/service/snapshot.go:89-113 | Stores the offset and every book. |
| MarketServer.MarketService.Load | market/internal/service/snapshot.go:116-133 | Sets the offset and every book from the stored form. |
| MarketServer.MarketService.ReplayTo | market/internal/service/service.go:109-118 | Silent replay ends with the books of the log up to the mark. |
| MarketServer.MarketService.Consume | market/internal/service/service.go:125-143 | The live loop publishes every message's reports once and in order; every snapshot due after a full period of messages and not failing is written, and no other, so the disk stays a snapshot of the log. |
| MarketServer.Recover | market/internal/service/service.go:69-118 | Started from any snapshot of the log, the service ends with the books of the whole log. |
| EngineRecovery.RestoreSymbol | market/internal/service/service.go:76-79 | An engine restored from a stored snapshot is valid and holds the symbol's book at the snapshot's offset. |
| EngineRecovery.RecoverSymbol | market/internal/service/service.go:69-118 | Replaying the rest of the log on that engine gives the symbol's book of the whole log. |
| Cashier.PostgresCashier.Deposit | cashier/internal/postgres_cashier.go:21-42 | Tables and reply are those of the deposit transaction, failures leaving all tables as they were. |
| Cashier.PostgresCashier.Withdraw | cashier/internal/postgres_cashier.go:44-81 | Tables and reply of the withdrawal transaction. |
| Cashier.PostgresCashier.Escrow | cashier/internal/postgres_cashier.go:83-143 | Tables and reply of the escrow transaction, with the funds check before the check for a repeated order. |
| DepositSafety.ReleaseAcceptedIff | cashier/internal/postgres_cashier.go:145-200 | A release that has read its entry is accepted if and only if the entry is still there, unchanged; otherwise another release has ended and this one reports an unknown escrow. |
| Cashier.PostgresCashier.ReleaseEscrowCommit | cashier/internal/postgres_cashier.go:159-200 | The transaction that ends a release with what was read before. |
| LedgerHistory.AvailableIsSpendable | cashier/internal/postgres_cashier.go:202-214 | The reported balance less the escrowed part is, to the unit, what a withdrawal or a hold for a new order would be granted. |
| LedgerReplies.BalanceTellsRow | cashier/internal/postgres_cashier.go:202-214 | Asking for the balance answers the user's row, and zeros for an unknown user. |
| LedgerReplies.ReplyTellsRow | cashier/internal/postgres_cashier.go:21-334 | Every accepted request is answered with its user's gross and escrowed balance afterwards, and as a replay if and only if its key had been used. |
| LedgerReplies.VerdictIsJudged | cashier/internal/postgres_cashier.go:21-334 | For every request, whether it is accepted and if not for which reason, from the balances; the row constraints refuse only a confirm or a release beyond what is escrowed. |
| Cashier.PostgresCashier.DepositEscrowed | cashier/internal/postgres_cashier.go:216-238 | Tables and reply of an escrowed credit under its reference. |
| Cashier.PostgresCashier.ConfirmDeposit | cashier/internal/postgres_cashier.go:240-263 | Tables and reply of a confirm under its key. |
| Cashier.PostgresCashier.CancelDeposit | cashier/internal/postgres_cashier.go:265-289 | Tables and reply of a cancel under its key, with its guard. |
| Cashier.PostgresCashier.Anchor | cashier/internal/postgres_cashier.go:295-334 | A repeated key is answered from the current row; a new one is recorded. |
| LedgerHistory.LedgerIsExact | cashier/internal/postgres_cashier.go:21-334 | In every run in which no released order id is escrowed again, with any interleaving, retries and failures: gross is deposits less withdrawals plus credits less cancels, escrowed is open entries plus credits less confirms less cancels, each effect counted once per key. |
| LedgerHistory.ReleaseIsExactIff | cashier/internal/postgres_cashier.go:145-200 | A release keeps every balance exact if and only if the entry it deletes is the one it read. |
| LedgerHistory.ReusedOrderBreaksLedger | cashier/internal/postgres_cashier.go:145-200 | Two releases read the same entry, one ends, the order id is escrowed again, the other ends: the ledger is no longer exact and escrow stays without an entry or a release under way. |
| LedgerHistory.EscrowAgainIff | cashier/internal/postgres_cashier.go:105-135 | Escrowing again for an order with an entry changes nothing, and is accepted if and only if the free balance covers the amount once more. |
| LedgerHistory.RetriedEscrowRefused | cashier/internal/postgres_cashier.go:105-135 | A run in which the retry of an applied escrow is refused for insufficient funds. |
| LedgerHistory.RetryChangesNothing | cashier/internal/postgres_cashier.go:295-334 | A request under a used key changes nothing, whatever its amount. |
| LedgerHistory.FailureLeavesKeyFree | cashier/internal/postgres_cashier.go:295-334 | A failed attempt changes nothing, so its key stays free. |
| LedgerHistory.RetriesAreAbsorbed | cashier/internal/postgres_cashier.go:295-334 | Inserting any number of retries anywhere in a run leaves its final state unchanged. |
| LedgerHistory.RetryForever | cashier/internal/postgres_cashier.go:306-320 | A key once used stays used through every later run. |
| DepositKeys.RefInjective | btcwatcher/internal/watcher.go:223-225 | Different outputs have different references. |
| DepositKeys.FamiliesAreDisjoint | cashier/internal/postgres_cashier.go:216-289 | Escrow, confirm and cancel keys of any two deposits never coincide, except a deposit's own with itself. |
| DepositKeys.TenIsTheBase | btcwatcher/internal/watcher.go:223-225 | Output indices are written in decimal. |
| DepositKeys.KeysReadBack | btcwatcher/internal/watcher.go:223-225 | From any of a deposit's keys its effect, transaction id and output index can be read back. |
| DepositTable.TxStore.InsertDeposit | btcwatcher/internal/txstore.go:53-62 | A positive output has an active row afterwards, a new one with its user, amount and height, one that was reorganised away at the new height; an active row and every other row stay as they are. |
| DepositTable.TxStore.Escrowed | btcwatcher/internal/txstore.go:107-112 | Exactly this output leaves the list of rows to be escrowed; no row appears, goes or otherwise changes. |
| DepositTable.TxStore.Confirmed | btcwatcher/internal/txstore.go:114-119 | Exactly this output leaves the rows to be confirmed, at every depth, and the rows to be cancelled; the rows to be escrowed stay the same. |
| DepositTable.TxStore.Cancelled | btcwatcher/internal/txstore.go:121-126 | Exactly this output's row goes, and with it its place in the rows to be cancelled and to be escrowed. |
| DepositTable.TxStore.DeleteFromHeight | btcwatcher/internal/txstore.go:128-143 | After both statements no unconfirmed row at or above the height is active; rows below it and confirmed rows are untouched. |
| DepositProtocol.CallTakesEffect | cashier/internal/postgres_cashier.go:295-334 | An accepted call leaves its effect applied, now or by an earlier attempt, because no other effect can have taken its key. |
| DepositProtocol.StepBacked | btcwatcher/internal/watcher.go:177-221 | Every step of any watcher or user keeps marks backed by effects and the ledger exact. |
| DepositProtocol.EffectsAreOrdered | btcwatcher/internal/watcher.go:69-221 | With any number of watchers, interleavings and lost marks: a row marked escrowed or confirmed had that effect applied, and confirm or cancel applied implies escrow applied. |
| DepositSafety.StepPlaced | btcwatcher/internal/watcher.go:69-221 | Every allowed step keeps confirmed deposits on the chain and cancelled ones off it. |
| DepositSafety.CallAccepted | cashier/internal/postgres_cashier.go:216-289 | Neither a row constraint nor the cancel guard refuses a call the watcher has listed. |
| DepositSafety.DepositsAreSafe | btcwatcher/internal/watcher.go:69-221 | In every calm run, whatever marks are lost: no deposit is both confirmed and cancelled, escrowed is open orders plus unresolved deposits, spendable funds contain no unconfirmed deposit, no watcher call is refused, and no release of an open order is. |
| DepositDepth.ListsByStanding | btcwatcher/internal/txstore.go:64-105 | At every height each row is in exactly the list its marks and its depth call for, and in at most one. |
| DepositDepth.DeepIsListed | btcwatcher/internal/txstore.go:76-89 | An escrowed, unconfirmed, active row with enough blocks on it is listed and its confirm is under way. |
| DepositDepth.ConfirmedWasDeep | btcwatcher/internal/watcher.go:191-203 | In every run, with any number of watchers and any lost marks, nothing is confirmed that was not found escrowed and active with the required number of blocks on the block that showed it. |
| DepositDepth.CancelledWasGone | btcwatcher/internal/watcher.go:205-221 | ... and nothing is cancelled that was not found escrowed, unconfirmed and off the chain, a disconnect having reached the block that showed it. |
| DepositLimits.SeenAgain | btcwatcher/internal/txstore.go:121-126 | If an output may be seen again after its cancel, a run exists that confirms it as well, for every world and output. |
| DepositLimits.DeepReorg | btcwatcher/internal/txstore.go:128-135 | If a disconnect may reach a deep deposit, a run with one lost mark applies both. |
| DepositLimits.TwoWatchers | btcwatcher/internal/watcher.go:191-221 | With two watchers, a stale cancel and a confirm can both be applied. |
| DepositLimits.ExclusionIff | btcwatcher/internal/watcher.go:69-221 | Confirm and cancel exclude each other in all reachable states if and only if all three assumptions are made. |
| DepositTracking.TrackedIff | btcwatcher/internal/txstore.go:128-143 | A step keeps the row of every unresolved deposit if and only if it is not a disconnect that finds an escrow applied but unmarked. |
| DepositTracking.OrphanIsReachable | btcwatcher/internal/txstore.go:137-142 | Under all assumptions, for every world and output: one lost answer and one disconnect leave the deposit escrowed and unresolved without a row. |
| DepositTracking.UnresolvedKeepRows | btcwatcher/internal/txstore.go:128-143 | In every calm run without such a disconnect, every unresolved deposit has its row. |
| BtcWatcher.Watcher.constructor | btcwatcher/internal/watcher.go:43-45 | A new watcher is idle over empty tables. |
| BtcWatcher.Watcher.EscrowRow | btcwatcher/internal/watcher.go:182-188 | One row: call, then mark; with any fault the row stays as it was and the state stays reachable. |
| BtcWatcher.Watcher.ConfirmRow | btcwatcher/internal/watcher.go:196-202 | Call, then mark; the row is marked only without a fault, and under all assumptions always then. |
| BtcWatcher.Watcher.CancelRow | btcwatcher/internal/watcher.go:214-220 | Call, then delete; the row goes only without a fault, and under all assumptions always then. |
| BtcWatcher.Watcher.RetryEscrows | btcwatcher/internal/watcher.go:177-189 | Afterwards exactly the rows that met a fault are still to be escrowed, and the tables are those of a reachable state of the protocol with one watcher. |
| BtcWatcher.Watcher.CheckConfirmations | btcwatcher/internal/watcher.go:191-203 | Afterwards exactly the ready rows not marked are still to be confirmed: under all assumptions those that met a fault. |
| BtcWatcher.Watcher.CancelReorgedEscrows | btcwatcher/internal/watcher.go:205-221 | Afterwards exactly the rows not dropped are still to be cancelled: under all assumptions the aged ones that met a fault. |
| BtcWatcher.Watcher.InsertOutputs | btcwatcher/internal/watcher.go:151-170 | Outputs to known addresses are inserted in order, less the failed inserts, whether or not they were cancelled before. |
| BtcWatcher.InsertedAreActive | btcwatcher/internal/watcher.go:151-170 | Afterwards every positive output to a known address whose insert did not fail has an active row, and no other row was touched. |
| BtcWatcher.Watcher.BlockConnected | btcwatcher/internal/watcher.go:150-175 | The whole handler, for leaders and others, as a composition of those changes. |
| BtcWatcher.Watcher.BlockDisconnected | btcwatcher/internal/watcher.go:92-98 | Both statements of a disconnect of any height, or only the first, from one reachable state to another. |
| BtcWatcher.Watcher.CashierTick | btcwatcher/internal/watcher.go:83-90 | The periodic round of a leader: escrow, cancel, then confirm when the height is known. |
| Instruments.ValidateStructural | registry/internal/validate.go:18-56 | Accepts exactly the non-empty lists of well-posed legs. |
| Instruments.CheckPropContradiction | registry/internal/validate.go:104-124 | Accepts exactly when no two claims contradict each other. |
| Instruments.CollectProps | registry/internal/validate.go:66-92 | Refuses repeated legs and second outcomes of a game, and groups the rest by statistic. |
| Instruments.ValidateCrossLeg | registry/internal/validate.go:59-102 | Accepts exactly when no two legs clash. |
| InstrumentLaws.VerdictIsOrderFree | registry/internal/validate.go:59-102 | The verdict is the same for every permutation of the legs. |
| InstrumentLaws.RejectionIsSound | registry/internal/validate.go:59-124 | When legs with different digests are rejected, no results of games and players make all of them true. |
| InstrumentLaws.ContradictIff | registry/internal/validate.go:108-120 | Two claims are rejected if and only if they share a threshold and every value meets exactly one of them, or each is met by a single value and the values differ. |
| InstrumentLaws.RejectedIff | registry/internal/validate.go:59-124 | An instrument of well-posed legs is rejected if and only if two legs share a digest, are both about one game's outcome, or make such claims about one statistic. |
| InstrumentLaws.RepeatedLegRejected | registry/internal/validate.go:71-78 | A leg given twice is always rejected. |
| InstrumentLaws.WellPosedIff | registry/internal/validate.go:22-54 | A leg is accepted by itself if and only if its fields are given, no threshold is negative, and some results of played games make it true and some make it false. |
| InstrumentLaws.AcceptedPossibleIff | registry/internal/validate.go:104-124 | Accepted legs can all come true if and only if no two of them have an empty range of values in common. |
| InstrumentLaws.AcceptedThoughImpossible | registry/internal/validate.go:108-120 | "More than 5" with "less than 3" is accepted and never true. |
| InstrumentIds.HashLegs | registry/internal/hash.go:15-32 | The loops compute the digest of the sorted and joined leg digests. |
| InstrumentIds.BeforeIff | registry/internal/hash.go:25 | The order of digests is that of a dictionary, ascending. |
| InstrumentIds.OrderedUnique | registry/internal/hash.go:25 | Sorting removes the order: one ordered sequence per multiset. |
| InstrumentIds.JoinedInjective | registry/internal/hash.go:26-29 | Digests of one width can be read back from their concatenation. |
| InstrumentIds.JoinedParts | registry/internal/hash.go:26-29 | The digests stand in the joined string one after the other. |
| InstrumentIds.OrderedId | registry/internal/hash.go:25-31 | Legs whose digests are ascending have the id of their digests joined as they stand. |
| InstrumentIds.SameIdIff | registry/internal/hash.go:15-32 | Two instruments have the same id if and only if their legs are equal as multisets, when the digests involved do not collide and have one width. |

## Assumptions stated in the contracts

* Ledger: no released order id is escrowed again (`Disciplined`, `NotReused`).
* Deposits: an output fixes its user and amount; transaction ids are 64 hex digits; the keys users choose
  for deposits and withdrawals are not deposit keys (`EnvOk`).  For exclusion only: one watcher, no
  disconnect that reaches a deposit already listed as deep enough, no output seen again after its
  cancel (`Assumptions`).  The watcher's handlers assume one watcher and, of the other two, only those the
  caller chooses.
* Instruments: no collision among the digests actually compared.

## Left out

- Kafka, gRPC, pgx, neutrino, etcd and protobuf bytes: the log is dense, a snapshot is saved and loaded as a value, a transaction is atomic.
- MarketServer.MarketService: its engines are the books they denote, not objects; aliasing between engines is not captured.  `EngineRecovery` does restore and replay on a real engine, one symbol at a time.
- MatchEngine.OrderBook.Restore: for a state that stands for no well-formed book (repeated ids, say) only safety and the next id are stated; no snapshot contains such a state.
- BtcWatcher.Watcher: users' own requests are not interleaved with its handlers; the transition system interleaves them between any two sub-steps.
- Loading and polling of users (btcwatcher/internal/watcher.go:104-148): the address index is fixed.
- Leader election: single leadership is an assumption, not derived, because the elector only waits after winning.
- Liveness of deposits and the age of a reorganisation: which rows are old enough is a parameter.
- The row versions of the accounts table: each transaction is one step, so the optimistic check never fails.
- 64-bit overflow of balances, and length limits of text columns.
- Order sides other than buy and sell, which the Go type admits.
- The execution reports built from engine events, and the publisher hook that makes a service live from the start.
- Marshalling errors in `HashLegs` and `LegHash`: a leg's digest is a given function.
- Entity validation, expiries, vendor feeds, reference data, user registration, the user interface and deployment: plumbing, or only easy members.
- The in-memory cashier used by tests: it answers a repeated escrow before the funds check and has no row constraint behind a confirm, so it is not the same ledger.
