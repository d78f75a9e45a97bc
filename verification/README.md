# Fill accounting and the engine that drives it

A Dafny model, with proofs, of a service that submits orders to a broker, takes fills back
at least once, in pieces, late and across restarts, and keeps several redundant views of
them: order records, a position book, a P&L basis, a set of seen executions, a SQLite
ledger, and, on the other side, the broker's own book. The service's promise is that these
never drift apart unseen. The model says when they agree, proves it over every run, and,
where the code does not keep the promise, gives the exact condition under which it does.

`dafny verify dfyconfig.toml` checks the project.

## Layers

| files | what they hold |
|---|---|
| `Models`, `Money`, `Sums` | value types, exact money arithmetic, sums over ledgers and over maps |
| `CostBasis`, `CostBasisTheory`, `Ledger`, `FifoOrder` | the blended average and the FIFO lot queue as classes, their specification, replays of a ledger |
| `Orders`, `OrderTheory` | the order state machine as a class, and its properties over runs |
| `Positions`, `Config` (module `Settings`), `Pnl`, `Store`, `Idempotency` | the components the engine drives |
| `EngineSpec`, `Engine` (module `EngineObject`) | the engine's steps between awaits as functions of its state, and the engine object proved to take exactly those steps |
| `Views`, `Recovery`, `Crash`, `Reloading`, `EngineRuns`, `AgreementRuns`, `StoredPositions`, `Redelivery`, `OrderHistory`, `Intents`, `Oversell` | what every engine step and run keeps |
| `PartingRuns`, `RestartRun`, `OversellRun` | concrete runs that show where the code falls short |
| `BrokerBook`, `MockBroker`, `Slicing` | the mock broker: its book, its snapshot, its slicing coroutine |
| `Reconcile` | the reconciler and what a result says |
| `ClosedSystem`, `SlicingRuns`, `BrokerRuns`, `EndToEnd`, `QuietVerdicts`, `CrashedDrain`, `Reconciliation`, `CleanRun` | engine and broker together, and what the reconciler must report |

A class method of the model is proved to compute a specification function of the old state;
the lemmas are about those functions. In-memory views and the stored orders and ledger
that `load()` reads are what `Agrees` is about; the stored positions, which nothing reads back,
are `PositionsStored`. `EngineObject.Engine` holds order objects, a `PositionBook`, a `PnlEngine`, an `IdempotencyRegistry` and a `Store`, and its `View()` is
the `State` the engine lemmas speak of.

## Modelling assumptions

- `Decimal` is exact real arithmetic; only `quantize` is an explicit rounding, half to even.
- `derive_key` is opaque and injective: the key is the order's intent itself. A zero limit
  price derives the key of no limit price, as `limit_price or ""` does
  (`Intents.SameKeyExactly`).
- Ids are naturals; a fresh id is one not in use. Timestamps are integers; `ORDER BY ts`
  keeps insertion order between equal ones.
- A step is what runs between two awaits. The mock broker's own calls never suspend (its
  queue is unbounded), so in the closed system submit, cancel and confirm are one step each;
  in the engine's own runs every await is a step boundary and any interleaving is allowed.
- In the closed system executions, fills and timestamps are numbered by the broker's one
  counter.
- A mark is a price per symbol or none, for the configured source.

## What the code does that its documentation does not say

- `on_fill` records the execution before it applies the fill, and `apply_fill` changes
  amounts before a transition that may raise. A fill of an order that is still `NEW` half
  applies, and its redelivery is then a duplicate (`PartingRuns.EarlyFillParts`). A
  provisionally `REJECTED` order would do the same, but no run of the engine has one
  (`OrderHistory.OnlyConfirmedRejections`).
- `on_fill` and `apply_fill` check neither the fill's symbol and side, nor that its fill id
  is new. A blank execution id is not looked up among the seen ones, being false, but is
  unique in the ledger: a second such fill reaches order, position and P&L and not the ledger
  (`PartingRuns.BlankFillsPart`). A fill without any execution id is never a duplicate.
  `Views.OnFillAgreesExactly` shows that these and half applying are all the ways in which
  `on_fill` parts the views; `AgreementRuns.RunAgreesExactly` does it for whole runs.
- The oversell guard ignores provisionally cancelled sells, which still take fills.
  `OversellRun.GuardCanOversell` is a run without restart into a short position;
  `Oversell.OversellExactly` is the exact condition; counting those orders
  (`Oversell.WideGuardNeverOversells`) needs none.
- The guard runs before the key is looked up, so a resubmitted sell can raise instead of
  returning its order (`OrderHistory.RetryReturnsTheOrder`; `PartingRuns.RetryIsOversold` is
  such a retry).
- An ack that reports a cancel raises if a query has already rejected the order; the broker's
  id it brought is then in memory and not on disk (`Recovery.AckAgreesExactly`;
  `PartingRuns.RefusedAckParts` is such a run).
- `load()` replays the ledger by timestamp, not in the order the fills came. A fill stamped
  before an earlier one can come back with another realized P&L and average cost: a run whose
  views agree until it restarts is `RestartRun.LateStampParts`. It cannot for a symbol that is
  flat, or whose own fills were written in timestamp order (`Reloading.FlatOrTimelyReloadsAlike`).
- A submit whose broker call fails leaves its key claimed and its order `NEW`; submitting the
  same intent again returns that order and never reaches the broker.
- Confirming an order before its fills are drained drops them for good, although the broker
  has booked them (`EndToEnd.ConfirmedFillIsDropped`; `CleanRun.HastyConfirmLosesTheFill` is
  such a run, with nothing cancelled). The broker's `cancel` does not stop the slicing either.
- A crash between the ledger's commit and the order's leaves the stored order one fill
  short, and the redelivered fill is a duplicate. One between the order's commit and the
  position's leaves that symbol's stored position missing or stale until its next fill
  (`Crash.CrashInFill`, `StoredPositions.NextFillStores`).
- The broker's book does not reset its average when a fill takes it through zero
  (`BrokerBook.BrokerRefinesExactly`; `BrokerBook.FlipParts` is such a sequence).
- A fee that is not positive is replaced by the schedule's in P&L only; the account's
  realized figure is off by exactly that excess (`Reconciliation.ReconcilesExactly`).
- A quantity of at most half a ten-thousandth per slice rounds to a zero slice: its slicing
  ends with nothing sent and its ack not FILLED, and nothing but a cancel will change that ack
  (`SlicingRuns.EndedDripSentAll`).
- `Store.apply_fill` inserts the fill before it writes the order, under
  `foreign_keys=ON`: for an order not stored yet it raises and writes nothing.
- Looking a position up creates it, so a refused sell adds a flat position that the
  reconciler then compares.

## Model

| member | source | states |
|---|---|---|
| CostBasis.AverageCostBasis.Apply | app/costbasis.py:59-81 | the in-place update is one blended step; the result is the change in realized P&L and the closed quantity, zero when opening and never more than was open |
| CostBasis.FifoCostBasis.CloseOldest | app/costbasis.py:124-135 | the loop over the lots ends, drops exactly the oldest units taken, keeps every lot positive, and realizes the sign times proceeds less the cost of those units |
| CostBasis.FifoCostBasis.Apply | app/costbasis.py:108-146 | a fill of either side, flips included, is the loop-free FIFO step, and keeps the queue's invariant: side zero exactly when empty, quantity the signed sum of positive lots |
| CostBasis.FifoCostBasis.AvgCost | app/costbasis.py:100-106 | the two sums over the lots give the queue's cost over its quantity, zero when empty |
| CostBasis.TakeTwice | app/costbasis.py:124-134 | taking x and then y units off the queue is taking x + y: the same queue, and costs that add up |
| CostBasis.DropFirstFacts | app/costbasis.py:124-134 | dropping the oldest x units keeps lots positive and takes exactly x and exactly their cost off the totals |
| CostBasis.FifoStepValid | app/costbasis.py:108-146 | every FIFO step keeps the queue's invariant |
| CostBasisTheory.AvgStepTotal | app/costbasis.py:59-81 | one fill adds signed quantity times distance to the mark to realized plus unrealized P&L, at every mark, whichever branch it takes |
| CostBasisTheory.FifoStepTotal | app/costbasis.py:108-146 | the same for FIFO |
| CostBasisTheory.FifoCloses | app/costbasis.py:123-146 | a closing fill realizes sign times (price times taken less the cost of the oldest units taken), and the new queue prices every first y units as the old one did after those taken |
| CostBasisTheory.AvgSplit | app/costbasis.py:59-81 | one fill or two at its price give the same blended basis, at and beyond zero too |
| CostBasisTheory.FifoSplit | app/costbasis.py:108-146 | one fill or two at its price give queues of the same quantity, realized P&L and cost of every first y units |
| CostBasisTheory.FifoStepKeepsAlike | app/costbasis.py:108-146 | queues that price alike, with different lots, still price alike after any fill |
| Ledger.AvgIdentity | app/costbasis.py:59-81 | for every ledger and mark: quantity is the net signed quantity, realized plus unrealized is the sum of signed quantity times distance to the mark |
| Ledger.FifoIdentity | app/costbasis.py:100-146 | the same identity under FIFO |
| Ledger.MethodsAgree | app/costbasis.py:50-146 | both methods agree on quantity and on total P&L at every mark, differ in realized P&L by the difference of their open cost, and agree on it when flat |
| Ledger.ReplayOrder | app/store.py:263-268 | any permutation of a ledger has the same quantity and total P&L at every mark under either method |
| Ledger.RealizedMoves | app/store.py:263-268 | realized P&L alone does depend on the order: two fill orders that realize different amounts |
| Ledger.LedgerSplit | app/costbasis.py:59-146 | splitting a fill anywhere in a ledger, with anything before and after, changes no replay under either method |
| FifoOrder.FifoOpens | app/costbasis.py:117-121 | an opening fill goes behind what is queued: the first units cost what they did, the ones after them its price |
| FifoOrder.FirstInFirstOut | app/costbasis.py:29-33 | for every ledger, flips included: the queue is what the ledger opened, in its own order, less as many of its first units as it closed, and realized P&L is that of matching every unit closed with the one opened earliest of those open |
| FifoOrder.EarliestFillsClose | app/costbasis.py:123-136 | a position built on one side in any fills, then closed in part or whole: what is realized is priced off exactly the earliest fills of the ledger |
| FifoOrder.BlendedFillsClose | app/costbasis.py:59-81 | of the same ledger the blended basis realizes the closing price less the mean price of all its fills, and keeps that mean until flat |
| FifoOrder.SaleOfTwoLots | tests/test_costbasis.py:4-20 | 100 at 10 and 100 at 12, less 120 at 15: 560 first in first out, 480 blended at 11 |
| FifoOrder.ClosedIsCancelled | app/costbasis.py:59-81 | the quantity a fill closes is half of what the two quantities lose when added |
| Orders.Order.ApplyFill | app/orders.py:82-113 | the order object's amounts, status and exception are those of the specified fill, with the amounts already changed when the transition raises |
| Orders.Order.MarkCancelled | app/orders.py:116-129 | the cancel transition in place, provisional or confirmed |
| Orders.Order.MarkRejected | app/orders.py:132-142 | the reject transition in place, refused once anything is filled |
| Orders.Order.ConfirmTerminal | app/orders.py:145-165 | the broker's verdict in place: terminal ones are forced and trusted, open ones undo a provisional terminal |
| OrderTheory.Lifecycle | app/orders.py:24-43 | the table of transitions: forward only, out of NEW only to SUBMITTED or a terminal state without fills, no rejection after a part fill, and out of a terminal state only from CANCELLED to FILLED |
| OrderTheory.FillOutcomes | app/orders.py:82-113 | which fills are taken, which exception refuses the others, which of those have changed the amounts already, and the status a taken one leaves |
| OrderTheory.CancelsAndRejects | app/orders.py:116-142 | when a cancel and a reject raise, and the status, reason and trust they leave |
| OrderTheory.OnlyItsOwn | app/orders.py:64-165 | no operation touches the identity, and only a fill touches amounts, only a submit the broker's id, only a cancel or reject the reason |
| OrderTheory.RunAccounts | app/orders.py:64-165 | after every run of successful operations, filled quantity and fees are the sums over the taken fills, the average times the quantity is their notional and lies between two fill prices, filled never exceeds the order, and unconfirmed FILLED means full |
| OrderTheory.ConfirmedIsFinal | app/orders.py:82-165 | whatever operations follow, raising or not, a confirmed terminal order stays confirmed with the same filled quantity, average and fees, and with its status but for a later terminal verdict |
| OrderTheory.OnlyVerdictsConfirm | app/orders.py:116-165 | an operation confirms an order only when it carries the broker's word |
| OrderTheory.LateFillsComplete | app/orders.py:104-113 | a provisionally cancelled or live order takes every late fill that fits, and is FILLED exactly when they use up what remained |
| OrderTheory.OrderSplit | app/orders.py:93-113 | one fill or two at its price leave the same order record |
| Positions.PositionBook.Apply | app/positions.py:38-69 | the in-place update is one blended step on that symbol's position and leaves all others |
| Positions.PositionBook.ApplyMany | app/positions.py:71-73 | applying a batch continues the replay of the ledger: the book is the replay of everything applied |
| Positions.BookStepReplays | app/positions.py:38-69 | a book that replays a ledger replays it with the next fill too: per symbol the same quantity, average and realized P&L as the blended basis, in lockstep, and the sum of the fees |
| Positions.PositionSplit | app/positions.py:38-69 | splitting a fill and its fee anywhere in a ledger leaves the same position, in every field, fees included |
| Settings.FeeIsClamped | app/config.py:60-68 | the fee is flat part, rate per share and basis points of the notional when that lies between the bounds, else the nearer bound; never above the maximum nor, when the bounds are in order, below the minimum |
| Settings.DefaultFees | app/config.py:54-68 | the default schedule charges 1 for 100 shares, 5 for 1000 and 100 for 50000 |
| Settings.FeeGrows | app/config.py:60-68 | without negative rates, a larger fill at the same price is never charged less, floor and cap included |
| Pnl.PnlEngine.Apply | app/pnl.py:89-96 | the three dictionaries move together by one entry step: the fee charged (the schedule's when the fill's is not positive) and one basis step |
| Pnl.PnlEngine.Report | app/pnl.py:112-129 | one line for every entry and no other, net of fees, marked at the configured mark or else at its own average |
| Pnl.FillIsCharged | app/pnl.py:89-96 | a fill with a fee adds that fee to its symbol's fees and deductions, one without adds the schedule's, within its bounds, and no other symbol is charged |
| Pnl.ChargesAreBounded | app/pnl.py:89-100 | over every ledger a symbol is charged the fees its fills carry and, for each that carries none, something between the schedule's bounds |
| Pnl.LineTells | app/pnl.py:102-129 | over the ledger an entry books: the line's quantity is the net of the fills, its realized P&L is after charges, realized and unrealized add up to every fill's distance to the mark less the charges, and without a mark the average stands in and nothing is unrealized |
| Pnl.TotalsAreSums | app/pnl.py:49-57 | the report's totals are the sums over the symbols, whatever the order of the lines |
| Pnl.PnlStepBooks | app/pnl.py:89-96 | entries that book a ledger book it with the next fill too: basis the replay, fees and adjustment the sum of charges |
| Store.ApplyFillIsAtomic | app/store.py:125-151 | crashed after any number of statements, the disk has fill, order and position all or none |
| Store.Store.ApplyFill | app/store.py:125-151 | nothing is written for a known execution or when a constraint fails; otherwise all three rows are |
| Store.Store.RecordFill | app/store.py:177-194 | a known execution is reported and not written; a violated constraint raises and rolls back |
| Store.Store.UpsertOrder | app/store.py:153-164 | the row is written whole, or merged over the stored identity, unless the client id is another order's |
| Store.ByTsSorts | app/store.py:267-268 | recovery loads a permutation of the ledger in timestamp order |
| Store.ByTsOfSorted | app/store.py:267-268 | a ledger written in timestamp order is loaded as written |
| Idempotency.IdempotencyRegistry.Reserve | app/idempotency.py:53-64 | the first claim of a key wins and stamps its order; a later one changes nothing |
| EngineObject.Engine.ReservedSells | app/engine.py:70-75 | the loop's total is the sum over the order map of what open sells of the symbol may still take |
| EngineObject.Engine.SubmitBegin | app/engine.py:80-94 | guard, key lookup, construction, reserve and persist, in that order, with each early exit's exact effect on the state |
| EngineObject.Engine.ApplyAck | app/engine.py:119-125 | the ack's effect on the order object in place, and the exception of a cancel it cannot take |
| EngineObject.Engine.SubmitAck | app/engine.py:96-100 | after the await: the ack applied, the key sent, the row stored; when the ack raises, neither of the last two; and exactly when the call raises |
| EngineObject.Engine.CancelAck | app/engine.py:102-109 | a cancel's answer leaves the order provisionally cancelled and stored, or raises with nothing stored; and exactly when |
| EngineObject.Engine.ConfirmAck | app/engine.py:111-117 | a query's answer is applied to the order and stored, and exactly when the store refuses it |
| EngineObject.Engine.OnFill | app/engine.py:127-138 | duplicate, raised or applied, with the state each leaves, including what a raise leaves behind |
| EngineObject.Engine.Load | app/engine.py:55-65 | a fresh engine's order loop and ledger loop rebuild exactly: orders as stored, every key claimed and taken as sent, executions, book and P&L from the ledger by timestamp |
| EngineObject.Engine.OnBrokerSnapshot | app/engine.py:143-158 | positions and P&L lines handed over are those of the engine's state, and the result is the reconciliation of them with the snapshot |
| Views.OneQuantity | app/engine.py:127-138 | when the views agree, position book, P&L basis, stored ledger and order records give one net quantity per symbol, and under AVERAGE book and basis are equal in every field |
| Views.OnFillAgreesExactly | app/engine.py:127-138 | whatever fill it is given, `on_fill` keeps all views together if and only if the fill is a duplicate, or does not half apply and, if it fits, is of its order's symbol and side, under a new fill id, and no second blank execution; and exactly when it is applied |
| Recovery.SubmitAgrees | app/engine.py:77-94 | a submit keeps the views together, whichever way it ends |
| Recovery.AckAgreesExactly | app/engine.py:119-125 | an ack keeps the views together unless it raises, on a FILLED or REJECTED order, having just named the order's broker id |
| Recovery.AckLeaves | app/engine.py:119-125 | what an ack leaves on its order, cancels it cannot take included: the broker's id and the status, and nothing else |
| Recovery.CancelAgrees | app/engine.py:102-109 | a cancel's answer keeps the views together |
| Recovery.ConfirmAgrees | app/engine.py:111-117 | a verdict keeps the views together |
| Recovery.LoadAgrees | app/engine.py:55-65 | the reloaded engine agrees and has the views of the one that was lost, if the ledger was written in timestamp order |
| Recovery.LoadKeepsTotals | app/engine.py:61-65 | reloaded out of arrival order it still has every quantity, and every total P&L at every mark, under either method |
| Recovery.ExactlyOnce | app/engine.py:127-138 | any stream with repeated executions, fills that overfill, come after a confirmation or name no known order, and restarts between deliveries, ends with the orders, ledger, positions and P&L of its first occurrences delivered once each: those that fit are in the ledger, in order, and no other ever will be |
| Crash.CrashInFill | app/engine.py:136-138 | crashed at any point of the three transactions and reloaded, positions and P&L are the replay of the ledger; the views agree if and only if the crash was not between the first two commits, where the order is short by this fill alone; and stored positions that were the book's still are if and only if it was not between the first and the last commit, where this symbol's is missing or stale and no other |
| Crash.AtomicFillRecovers | app/store.py:125-151 | with the one transaction instead, every crash point reloads into agreeing views, before or after the fill, with the stored positions the book's if they were |
| EngineRuns.AtMostOnce | app/engine.py:85-99 | over every run of submits, acks, fills, crashes and restarts in any interleaving, no key is sent to the broker twice, every known key leads to one order the engine has, and no two orders share a key |
| Intents.SameKeyExactly | app/idempotency.py:21-31 | two intents have one key if and only if symbol, side, quantity, type and nonce are equal and the limits are, zero counting as none |
| Intents.DispatchedExactly | app/engine.py:77-94 | after every run a submit under a fresh id is refused exactly when it is a sell of more than is held and not on sale, returns an order exactly when the engine has one of that intent, field by field, and otherwise, if the order can be made, is sent to the broker and stored with every field that was asked for |
| Intents.SentExactly | app/idempotency.py:66-71 | a key is taken as sent exactly once its order's ack has come without raising, or after a restart, and stays so |
| AgreementRuns.StepAgreesExactly | app/engine.py:55-138 | from agreeing views each event, crash points and restarts included, leads to agreeing views if and only if it is fair (a refused ack is not the first to name the broker's id, a fill that fits is whole and does not half apply, a crash does not fall between the first two commits) and the ledger a restart in it finds replays by timestamp as it was written |
| AgreementRuns.RunAgreesExactly | app/engine.py:55-138 | over every run of submits, acks, fills, cancels, verdicts, crashes and restarts in any interleaving, the views agree all along if and only if every event meets its condition |
| AgreementRuns.RunHasOneQuantity | app/engine.py:127-138 | at every point of such a run, for every symbol, book, basis, stored ledger and order records give one net quantity, and under AVERAGE book and basis are equal |
| AgreementRuns.TimelyRunAgrees | app/engine.py:55-65 | if every event is fair and every restart finds each symbol flat or its fills written in timestamp order, the views agree all along |
| Reloading.FlatOrTimelyReloadsAlike | app/store.py:263-268 | a ledger each symbol of which is flat or has its own fills in timestamp order, whatever the others have, reloads into the same positions and P&L entries under either method |
| Reloading.SortedReloadsAlike | app/store.py:263-268 | so does a ledger wholly in timestamp order |
| Reloading.PositionReloadsExactly | app/engine.py:61-65 | whatever the timestamps, a symbol's position is reloaded in every field if and only if its realized P&L is |
| Reloading.AverageReloadsExactly | app/engine.py:61-65 | under AVERAGE positions and P&L entries of all symbols are reloaded if and only if every symbol's realized P&L is |
| StoredPositions.StepStoresExactly | app/engine.py:136-138 | from agreeing views with every stored position the book's, an event that keeps the views together keeps the positions so if and only if it is not a crash between the order's commit and the position's of an applied fill |
| StoredPositions.RunStoresExactly | app/store.py:3-8 | over every run, views agree and all stored positions are the book's all along if and only if every event keeps the views together and none is such a crash |
| StoredPositions.NextFillStores | app/engine.py:138 | whatever was stored of its symbol, the next applied fill stores the book's position |
| Redelivery.RepeatsChangeNothing | app/engine.py:128-131 | in every run of any events an execution is in the ledger at most once, and the run ends in the very state it would reach without the deliveries of executions the ledger already had |
| Redelivery.LedgerOnlyGrows | app/store.py:177-194 | the ledger of a run is a prefix of the ledger of every continuation, crashes and restarts included |
| RestartRun.TradeAgrees | app/engine.py:80-138 | from any agreeing state a new order of one unit, acknowledged and filled, keeps the views together and adds its fill to the ledger, whatever its timestamp |
| RestartRun.LateStampParts | app/engine.py:61-65 | a concrete run of three such trades, the sale stamped between the purchases, after which the views agree and the realized P&L is zero; after a restart they do not and it is ten |
| PartingRuns.RefusedAckParts | app/engine.py:119-125 | a concrete run, rejected by a query and then acknowledged as cancelled, that agrees up to the ack and then has the broker's id in memory only |
| PartingRuns.RetryIsOversold | app/engine.py:80-88 | after a sell of all that is held, the same intent is refused although its key leads to its order |
| PartingRuns.EarlyFillParts | app/engine.py:128-135 | a concrete run, a fill before its order's ack, after which the order is full, the book flat and the ledger empty |
| PartingRuns.BlankRepeats | app/engine.py:128-138 | from any agreeing state two fills with a blank execution id and room for both are applied to order and position, and only the first is recorded |
| PartingRuns.BlankFillsPart | app/engine.py:128-138 | a concrete run from the start that ends that way |
| OrderHistory.KeysKeepTheirOrders | app/idempotency.py:53-64 | along every run, restarts and crashes included, every order keeps its identity and every known key leads to the order it led to |
| OrderHistory.RetryReturnsTheOrder | app/engine.py:80-88 | at any later time a retry of a sent intent sends nothing, changes no order and returns the order that was sent, unless it is a sell the guard refuses |
| OrderHistory.OnlyConfirmedRejections | app/orders.py:145-165 | no run has a provisionally rejected order, in memory or on disk |
| EngineRuns.StepVerdicts | app/engine.py:55-138 | a step loses no confirmation, in memory or on disk; the only step that adds one, or changes its status, is a terminal verdict on that order, which is then its status |
| EngineRuns.ConfirmedForGood | app/orders.py:145-165 | once confirmed in a run, an order stays confirmed with its amounts through every continuation, restarts and crashes included, in memory and on disk, and its status is the last terminal verdict on it |
| EngineRuns.VerdictDecides | app/engine.py:111-117 | after every run a verdict on a known order leaves its status if terminal, or if open and the order was terminal on our own word, and otherwise the old one, in memory and on disk, confirmed as it must be, and changes nothing else |
| Oversell.StepCoversExactly | app/engine.py:70-83 | from a covered state a step keeps the position at least the sum of what open sells may take if and only if a sell it revives may only take what is available |
| Oversell.OversellExactly | app/engine.py:70-83 | over every run whose restarts find memory and disk alike, the position covers the open sells throughout if and only if every sell revived on the way, by a late fill or a reopening verdict, may only take what is then available |
| Oversell.RestartCoversExactly | app/engine.py:55-75 | whatever a restart finds on disk, the position then covers the sells if and only if the stored ledger's net quantities cover the stored orders |
| Oversell.AgreeingRestartIsCalm | app/engine.py:55-65 | from agreeing views a restart finds memory and disk alike |
| Oversell.NeverShort | app/engine.py:80-83 | under that condition no position is ever short |
| Oversell.WideGuardNeverOversells | app/orders.py:173-175 | a guard that also counts sells awaiting confirmation keeps every position at or above all that may still be sold, over every run whose restarts find memory and disk alike |
| OversellRun.GuardCanOversell | app/engine.py:70-83 | a concrete run through which the guard as written lets two sells of one unit fill against a position of one |
| MockBroker.NearestIsQuantized | app/brokers/mock.py:122 | rounding gives the one nearest multiple of the unit, the even one of two equally near |
| MockBroker.QuantizePositive | app/brokers/mock.py:136 | rounding half to even gives a positive slice exactly above half a unit |
| MockBroker.MockBroker.ApplyToBook | app/brokers/mock.py:232-248 | the in-place update is one step of the broker's account |
| MockBroker.MockBroker.Submit | app/brokers/mock.py:94-117 | a known client id is answered with its ack; otherwise reject, transient failure, immediate fill or a started slicing coroutine, with the exact state each leaves |
| BrokerRuns.FirstSubmitsFail | app/brokers/mock.py:94-105 | of any sequence of first submits exactly those of listed symbols are rejected, exactly the first so many of the others fail and may be retried, and neither leaves anything at the broker |
| BrokerRuns.ResubmitReplays | app/brokers/mock.py:95-97 | a client id taken once is answered again with the same ack, whatever is submitted under it, and nothing happens |
| BrokerRuns.FilledAtSubmit | app/brokers/mock.py:119-131 | without slicing an accepted order is filled at once and whole, at its limit or else at the symbol's price or 100, at the fee of its quantity |
| BrokerRuns.FillsAreHonest | app/brokers/mock.py:99-152 | over every run no fill is of a listed symbol, and each carries the rate times its quantity to the nearest cent |
| BrokerRuns.SettledForGood | app/brokers/mock.py:166-183 | a terminal ack of an order whose slicing has ended is the answer to every later query, through any run |
| BrokerRuns.CancelIsKept | app/brokers/mock.py:166-183 | an open ack becomes CANCELLED with the amounts it had, and stays the answer to every later query unless a slice is still to come |
| MockBroker.MockBroker.DripTurn | app/brokers/mock.py:139-164 | one turn of the slicing loop: the fill sent, the ack, the drip's variables, and how it ends |
| MockBroker.MockBroker.DripAll | app/brokers/mock.py:133-164 | the whole coroutine, run without a pause, is at most `slices` of those turns |
| MockBroker.MockBroker.QueryOrder | app/brokers/mock.py:178-183 | the last ack of a known id, a rejection of an unknown one, nothing changed |
| MockBroker.MockBroker.Cancel | app/brokers/mock.py:166-176 | only an open ack becomes CANCELLED, keeping its amounts; the drip goes on |
| MockBroker.MockBroker.SnapshotPositions | app/brokers/mock.py:214-230 | one row, drift applied, for every symbol that then is not flat, and the sum of their unrealized P&L |
| MockBroker.MockBroker.PnlSnapshot | app/brokers/mock.py:192-206 | the account figures net of fees, drift applied, with those rows |
| Reconciliation.SnapshotTells | app/brokers/mock.py:192-230 | in every reachable state the broker reports exactly the traded symbols whose net sent quantity, drift added, is not zero, with that quantity valued at its price and the whole account's realized figure as of its last fill, and the fees of all that was sent |
| BrokerBook.BookedExactly | app/brokers/mock.py:232-248 | one fill by the broker's signed formula gives the position book's quantity and realized gain always, and its average exactly when it does not take the book through zero at another price |
| BrokerBook.BrokerQuantity | app/brokers/mock.py:232-248 | for every fill sequence, flips included, the broker's quantity is the net signed quantity and its fees all fees |
| BrokerBook.BrokerRefinesExactly | app/brokers/mock.py:232-248 | after every fill the broker's quantities and averages are the position book's and its one realized accumulator the sum of theirs over the symbols, if and only if no fill flips a book at another price |
| BrokerBook.FlipParts | app/brokers/mock.py:241-247 | two fills after which the books disagree |
| Slicing.SlicingConserves | app/brokers/mock.py:133-164 | with no pause between slices, the loop ends within `slices` turns, having sent the whole order a cent apart, all but the last of the quantity's share to the nearest ten-thousandth, with a last ack that says so at the average, if and only if the quantity is above half a ten-thousandth per slice; otherwise nothing |
| SlicingRuns.EndedDripSentAll | app/brokers/mock.py:133-164 | over every run, whatever submits, drains, cancels, confirmations, price moves, restarts and other orders' slices come between: an order whose slicing has ended was sent in at most `slices` fills, a cent apart from its limit or the price it began with, all but the last of the quantity's share to the nearest ten-thousandth, summing to exactly its quantity, if and only if the quantity is above half a ten-thousandth per slice and that price is not negative; otherwise nothing; and its ack has the amount at its average, and is FILLED if and only if that is the quantity |
| SlicingRuns.DrainedSlicesFill | app/brokers/mock.py:133-164 | once drained with nothing dropped, the engine's record of such an order is full under the same condition, at its slices' average |
| Reconcile.SortSymbols | app/reconcile.py:120 | the symbols of the set, each once, in ascending order |
| Reconcile.Reconciler.Reconcile | app/reconcile.py:109-152 | the loop's rows and count are the specified result over the sorted union of symbols |
| Reconcile.ReportedExactly | app/reconcile.py:120-152 | a row is reported if and only if its leg is compared and its figures differ by more than the leg's tolerance, with both figures and the most fundamental cause; three legs a symbol and two for the account are checked |
| Reconcile.CausesExactly | app/reconcile.py:90-102 | a symbol's rows say a missing fill if and only if its quantity is among them, else fee treatment if and only if its average is, else mark source, and never unknown |
| Reconcile.CleanExactly | app/reconcile.py:60-66 | nothing is reported if and only if every compared leg is within tolerance |
| ClosedSystem.DrainExactly | app/engine.py:127-138 | in every reachable state the next queued fill is of a known order and has room, and `on_fill` applies it if and only if its order is not confirmed; otherwise only the execution is noted |
| ClosedSystem.EveryRun | app/brokers/mock.py:94-187 | every run of engine and broker from empty, any number of orders and symbols, restarts and redeliveries included, keeps the views together, the ledger a part of what was sent, and every ack and every drip's variables equal to what was sent of its order, the ack's status included |
| EndToEnd.GapIsInFlight | app/brokers/mock.py:185-187 | in every reachable state the broker's quantity less the engine's is the net signed quantity still queued plus that of the dropped fills |
| CrashedDrain.GapAfterCrash | app/engine.py:127-138 | in every reachable state, crashed after any number of the commits of the next fill and restarted: the views agree unless exactly the ledger was committed, and the gap is what is queued, what was dropped, and this fill if nothing of it was committed or its order was confirmed |
| EndToEnd.ConfirmedFillIsDropped | app/orders.py:89-91 | a queued fill of a confirmed order is dropped in every continuation |
| CleanRun.HastyConfirmLosesTheFill | app/engine.py:111-117 | for any symbol, quantity and price: a buy confirmed before it is drained ends drained with the broker holding the quantity, and the engine a FILLED order with nothing filled and a flat position |
| EndToEnd.OnlyDrainDelivers | app/engine.py:127-135 | only a drain delivers, one fill at a time, kept exactly when its order is not confirmed |
| EndToEnd.NothingIsDropped | app/engine.py:111-117 | if confirmations wait until nothing of their order is left to come, no run drops a fill, and the gap is what is queued |
| QuietVerdicts.ConfirmedIsFilledExactly | app/orders.py:145-165 | over every run whose confirmations wait, a confirmed order has the status the broker still answers, is FILLED if and only if its record is full, and REJECTED if and only if the broker never took it |
| EndToEnd.AcksMatchOrders | app/brokers/mock.py:156-162 | once drained, the broker's last ack of an order has the order record's filled quantity and average price, and says WORKING, PARTIALLY_FILLED or FILLED as the record is empty, part or full, or CANCELLED if it is not full |
| Reconciliation.QtyBreakReportedExactly | app/reconcile.py:132-136 | at any point of any run, with zero quantity tolerance, a quantity break of a symbol is reported if and only if the net of its queued and dropped fills is not zero, and then every row of the symbol says a fill is missing |
| Reconciliation.ReconcilesExactly | app/reconcile.py:109-152 | drained, under AVERAGE, never flipped and marked alike, the reconciler reports nothing but the account's realized row, and that if and only if the schedule fees put in place of non-positive ones exceed the tolerance |
| Reconciliation.MatchedBookIsClean | app/brokers/mock.py:192-206 | with every fee positive it reports nothing, account rows included |
| Reconciliation.EveryDrainedRunIsClean | app/reconcile.py:109-152 | over every run, any orders, symbols, slices and restarts, whose confirmations wait, once drained: no break |
| CleanRun.BuyRunReconciles | app/reconcile.py:109-152 | for any symbol, quantity and price a run that buys and drains meets every hypothesis of that theorem, having traded, and its reconciliation exists and is clean |
| Reconciliation.TotalsAgree | app/pnl.py:49-65 | under either method, FIFO included, the drained engine's total P&L is the broker's less the fee excess |
| Reconciliation.AnyDriftIsLocated | app/brokers/mock.py:214-230 | whatever drift is injected at a symbol, quantity, average or account deltas, even one that hides the position: a row is reported if and only if its leg's gap is beyond tolerance, with that gap and the most fundamental cause, and nothing about any other symbol |
| Reconciliation.DriftIsLocated | app/brokers/mock.py:214-230 | with an average-cost drift on an open symbol, the reported rows are exactly its average row, its unrealized row and the account's unrealized row, each if and only if beyond tolerance, with their causes |
| Reconciliation.QtyDriftIsLocated | app/brokers/mock.py:214-230 | with a quantity drift on a traded symbol that still shows, the reported rows are exactly its quantity row as a missing fill, its unrealized row and the account's, each if and only if beyond tolerance |

## Left out

- FastAPI routes, JSON, the scenarios command line and `ReconcileResult.render`: presentation.
- Real SQLite, WAL and SQL text; `trade_history`; `load_open_orders`, `get_order`, `load_positions`, which the engine does not call.
- Feeds, staleness and age of marks, the wall clock, `app/retry.py`, environment parsing and adapter factories: no state the views depend on.
- Hash collisions and `str(Decimal)` forms in `derive_key`; Decimal's 28-digit context, NaN and infinities.
- Threads and locks: a locked section is one step; `created_at`, `updated_at` and `mark_stale` are omitted.
- The break callback and `last_reconcile`; `on_fill`'s own reconcile call is `Engine.OnBrokerSnapshot` after the fill.
- Pnl.PnlEngine.Apply: the cost-basis objects are held as values, not as heap objects; each lives in one dictionary only, so no aliasing is lost. Their in-place form is proved in `CostBasis`.
- MockBroker.MockBroker.DripTurn: a slicing coroutine's local variables are an entry of a map, one turn a method call; `asyncio` scheduling and the pause between slices are any interleaving of turns.
- MockBroker.MockBroker.ApplyToBook: positions are values in a map field, as nothing else refers to them.
- Crash.CrashInFill: a failure inside a store transaction other than a crash or a violated constraint is not modelled.
- Oversell.OversellExactly: a crash inside `on_fill`, or a restart that finds memory and disk apart, ends the run; what it leaves covered is `Oversell.RestartCoversExactly`.
- CrashedDrain.GapAfterCrash: one such crash from any reachable state; the closed system's runs do not go on after a crash inside `on_fill`, which the engine's own runs (`AgreementRuns`) do.
- AgreementRuns.StepAgreesExactly: that a ledger out of timestamp order reloads alike is stated of its replays; which orders of which prices make it so by coincidence has no shorter form here than equal realized P&L (`Reloading.AverageReloadsExactly`).
- Recovery.ExactlyOnce: crashes fall between `on_fill` calls; the ones inside are `Crash.CrashInFill`. Deliveries among other events are `Redelivery.RepeatsChangeNothing`.
