# A verified model of the order processing backend

The backend takes orders over HTTP, reserves stock, charges a payment provider and settles the
order, with many requests and worker goroutines at work on one database. This project models that
core in Dafny and proves what holds of it in every interleaving.

`dafny verify dfyconfig.toml` checks everything.

## How it is organised

| files | what they hold |
|---|---|
| `Results`, `MapSums`, `MoneyModel` | results with error kinds, sums over maps, int64 money with explicit wrap-around |
| `Inventories`, `Orders`, `Payments`, `Notifications` | the aggregates as classes, each proved against functions on plain data, and laws about runs of calls |
| `Gateways`, `GatewayCalls` | the payment gateway's memo: one call as a method, any number of interleaved calls as a step system |
| `Stores`, `Databases` | the database as a value with its transactions as functions, and as a class that the repositories change in place |
| `PlaceOrders`, `OrderCommands` | the commands, statement by statement, proved against the transactions |
| `Protocol`, `Conservation`, `Ledger`, `Guarantees` | all commands interleaved: a step system, what it keeps in every run, what it keeps in disciplined runs, and the guarantees that follow |
| `ChargedOrders`, `StaleCancels`, `Overlaps`, `LoneWorkers` | when every charge ends in a fulfilled order, how overlapping cancellations and manual status changes break the ledger or lose a charge, and what one worker does alone |
| `Crews`, `Pools`, `EventBuses`, `Dispatchers`, `Hubs`, `Shutdown`, `ShutdownEnds` | channels and their goroutines: the worker pool, the event bus, the notification dispatcher, the websocket hub, the order in which the application stops them, and that the shutdown ends |
| `DailyReports` | the paging loop of the daily report and its aggregations |

Wherever the program changes state step by step there is a class whose methods do the same, with
contracts that equate the new state with a function of the old one. Interleavings are step systems
over values that use the same functions, so a law about the steps is a law about the methods.

## What is proved, in short

* **Conservation, in every run whatsoever**, stale or doubled cancellations and manual status changes
  included: available and reserved never go negative, and available + reserved + sold = supplied.
* **The reservation ledger**: in every disciplined run, stops and crashes included, each product's
  reserved count is the sum over the reserved orders, and its available count is what was supplied
  less what reserved and fulfilled orders took. *Disciplined* means that a cancellation does not
  overlap a live worker or another cancellation of the same order, and that nobody moves a status by
  hand. Each of these conditions is needed: for a doubled cancellation, for one that overlaps a live
  worker and for a manual change there is a lemma that says exactly when it breaks the ledger, and a
  run from the start in which it does.
* **Charged exactly when fulfilled**: in a disciplined run the charged keys are those of fulfilled,
  paid orders iff no worker was stopped between its charge and transaction two. Transaction two of a
  live worker is never refused and touches only its own order's units.
* **The outcome of placing one order**, as an if-and-only-if for each of its four outcomes, with the
  events published in each; every run of an undisturbed worker's own steps ends in precisely that
  outcome, and in any company a worker takes at most 2 * attempts + 2 steps.
* **Draining**: a stopped pool, bus or dispatcher has handled each accepted message exactly once,
  nothing is ever sent on a closed channel, the order in which the application stops its components
  makes these hold together, and in every fair run the whole shutdown comes to its end.
* **Gap-free delivery** to websocket clients, **events that explain the counts** of the aggregates, a
  **repository that refines the aggregate**, exact **totals** and exact **report pages**.

## Where the code and its documentation differ

* The state diagram (docs/diagrams/03-order-state.mmd:1-13) has no edge from paid to failed; the code
  (internal/domain/order/order.go:181-189) allows it. `CodeAllowsOneMoreEdge` says it is the only one.
* `Pool.Start` raises the wait group after it has released its lock
  (pkg/concurrency/workerpool.go:33-46), so a concurrent `Stop` can return with accepted tasks not run.
  `StopDrainsIffLaunched` gives the exact condition and `StopCanOvertakeStart` a run in which it fails.
* A zero total makes `NewPayment` fail after transaction one has committed
  (internal/application/command/place_order.go:120-123): the order stays reserved. It is an outcome of
  its own, `Unpaid`.
* `PlaceOrder.Handle` publishes the order's events even when its transaction was rolled back
  (internal/application/command/place_order.go:85-89). The contract of `Handle` says what is published.
  `SettlingAnnouncesIff` says, for every run, exactly when an order is announced as paid or a payment
  announced as made although transaction two is refused; `LedgerCanBreak` is a run in which both
  happen, and `SettlingTellsTheRows` shows that neither does in a disciplined run.
* A worker that stops between its charge and transaction two leaves a charge that no payment row will
  ever record (`ChargedIffFulfilled`), and the order can then be cancelled
  (`StoppedChargeCanBeCancelled`).
* `CancelOrder` reads the order outside its transaction
  (internal/application/command/cancel_order.go:26-32): two overlapping cancellations of one order can
  both give its units back, and a worker that has charged for another order is then refused
  (`LedgerCanBreak`). One that overlaps the order's own worker breaks the ledger too, or makes the
  worker lose its charge (`OverlappingCancelIff`, `OverlapCanBreak`, `ChargeCanBeLost`).
* An order whose total wraps to a negative amount is committed by transaction one and can never be
  read back, and so never be cancelled (`ReadableIffTotalFits`).
* A send error with an empty text leaves a notification's row queued, because `MarkFailed` rejects an
  empty reason (internal/domain/notification/notification.go:101-104). `HandoverIsRecordedIff`.

## Model

| member | source | states |
|---|---|---|
| Conservation.UnitsAreConserved | docs/adr/0002-atomic-inventory-reservation.md:24-30 | in every reachable world of every interleaving, including stale cancels and manual status writes, no count is negative and available + reserved + sold = supplied, so sales never exceed supply |
| Conservation.OneWorkerPerKey | internal/infrastructure/persistence/gormrepo/models.go:44-55 | two workers that have committed transaction one for one idempotency key are the same worker, however requests race |
| Conservation.StoresAreSound | internal/application/command/place_order.go:98-118 | in every reachable world counts are non-negative, each payment row has its order with the same key, and no committed order is pending |
| Conservation.StepKeepsBase | internal/application/command/place_order.go:97-191 | every step of every command keeps the invariant behind these laws |
| Conservation.SettleStep | internal/application/command/place_order.go:145-185 | transaction two, from any worker that reaches it, commits iff no payment is in its way and the reserved counts cover its lines; else the database is unchanged |
| Guarantees.ReservationLedger | internal/application/command/place_order.go:98-185 | in every disciplined run reserved = sum over reserved orders, available = supplied - reserved - fulfilled, and no committed order is pending or paid |
| Guarantees.ChargedWhenFulfilled | docs/adr/0003-payment-outside-transaction.md:17-28 | in every disciplined run a fulfilled order has been charged and has its succeeded payment with its key, total and the gateway's reference; a failed one has a failed payment and no charge; there are no other payments; every charge is that of a fulfilled, reserved or cancelled order |
| ChargedOrders.ChargedIffFulfilled | internal/application/command/place_order.go:125-182 | in every disciplined run, each charge is that of a fulfilled order or in its worker's hands iff no worker was stopped between charge and transaction two; once no worker is there, the charged keys are exactly those of fulfilled, paid orders iff so |
| ChargedOrders.TendedIffNoneDropped | internal/application/command/place_order.go:125-182 | the same from any world in which the ledger holds and every charge is tended |
| ChargedOrders.OrphanStaysForGood | internal/application/command/place_order.go:145-182 | a charge whose worker was stopped is never settled in any later disciplined run: its order stays reserved or becomes cancelled |
| Guarantees.SettlingCompletes | internal/application/command/place_order.go:145-185 | a live worker's transaction two commits in every disciplined run and moves its own order and exactly its own units |
| Guarantees.CancelKeepsLedgerIff | internal/application/command/cancel_order.go:26-58 | a cancel that commits, whatever status it read, keeps the ledger iff it gives units back exactly when the row is still reserved |
| StaleCancels.DoubledCancelBreaksLedgerIff | internal/application/command/cancel_order.go:26-58 | two cancels of one reserved order, both read before either commits, break the ledger iff other reserved orders hold its units once more; the units are then given back twice |
| StaleCancels.StarvedIsRefused | internal/application/command/place_order.go:163-177 | after such a double release, the worker of another order that is short of a unit is refused with a conflict although it has charged: no payment, order still reserved |
| StaleCancels.LedgerCanBreak | internal/application/command/cancel_order.go:26-32 | a run from the start that ends with the ledger broken by a doubled cancel, where a charged worker is then refused and announces order and payment as paid |
| Overlaps.OverlappingCancelIff | internal/application/command/cancel_order.go:26-58 | a cancel that overlaps the order's live worker at any point between its transactions: transaction two then settles the cancelled order and breaks the ledger iff other reserved orders hold its units once more, and else is refused with a conflict and the charge is lost |
| Overlaps.OverlapCanBreak | internal/application/command/cancel_order.go:26-32 | a run from the start that ends with the ledger broken by such an overlap, a cancelled order being fulfilled |
| Overlaps.ChargeCanBeLost | internal/application/command/cancel_order.go:26-32 | a run from the start in which no worker is stopped and a charge is lost: order cancelled, no payment |
| Overlaps.StatusByHandBreaksLedgerIff | internal/application/command/update_order_status.go:19-49 | a manual change breaks the ledger iff it takes a reserved order to paid, cancelled or failed |
| Overlaps.StatusByHandCanBreak | internal/application/command/update_order_status.go:34-49 | a run from the start that ends with the ledger broken by a manual change |
| StaleCancels.ChargedWorkerIsReached | internal/application/command/place_order.go:97-143 | a disciplined run from the start that reaches a worker with a charge in hand, beside a reserved order |
| Guarantees.SettleKeepsLedgerIff | internal/application/command/place_order.go:145-182 | transaction two, working from the order in memory, keeps the ledger iff the row is still reserved |
| Guarantees.StatusChangeKeepsLedgerIff | internal/application/command/update_order_status.go:19-49 | a manual status change keeps the ledger iff it neither enters nor leaves status reserved |
| ChargedOrders.StoppedChargeCanBeCancelled | internal/application/command/place_order.go:131-145 | after a stop between charge and transaction two the order can be cancelled while the gateway keeps the charge and no payment exists |
| LoneWorkers.AloneWorkerRunsProcess | internal/application/command/place_order.go:97-191 | every run of a queued worker's own steps has at most 2 * attempts + 2 of them, can go on until the worker is over, and then has the store, memo and outcome of Process |
| LoneWorkers.StepsAreBounded | internal/application/command/place_order.go:129-143 | in any run, whoever else is at work, a worker's own steps are bounded by what its phase leaves, 2 * attempts + 2 from the queue |
| Ledger.SettleIsNeverRefused | internal/infrastructure/persistence/gormrepo/inventory_repo.go:53-82 | under the ledger the reserved >= qty guards never reject a live worker, also with several lines of one product |
| Ledger.StepKeepsStrong | internal/application/command/place_order.go:97-191 | every disciplined step keeps balances, payments, memo, live workers and fresh cancels in agreement |
| Ledger.ReserveBalances | internal/application/command/place_order.go:98-118 | transaction one raises reserved by what the new order books, for every product |
| Ledger.ReleaseBalances | internal/application/command/cancel_order.go:34-58 | moving an order's lines out of reserved while it leaves status reserved keeps every balance |
| Ledger.ApproveKeepsAgreed | internal/infrastructure/payment/mock_gateway.go:76-87 | a key enters the memo only while its one order is reserved and its worker is the one that was calling |
| PlaceOrders.ProcessOutcomes | internal/application/command/place_order.go:97-191 | exactly one of: rejected without a trace iff key taken or stock short; reserved and unpaid iff the total is zero; fulfilled iff some attempt succeeds; failed with stock given back otherwise; with all rows, and attempts = index of the first success or all |
| PlaceOrders.EveryAttemptIsMade | internal/application/command/place_order.go:125-143 | with stock and a total a new order is completed iff the key is known or one of the first maxAttempts answers approves, the first counting also below 1; a declined payment records exactly maxAttempts attempts, or 1; a successful one the number of its first approval |
| PlaceOrders.ChargeLoopExact | internal/application/command/place_order.go:125-143 | the loop succeeds iff some attempt would, stops at the first that does, and otherwise uses all attempts and leaves no memo entry |
| PlaceOrders.SettlesAfterReserve | internal/application/command/place_order.go:145-185 | right after transaction one, transaction two cannot be refused, whatever the gateway said |
| PlaceOrders.BuildItemsExact | internal/application/command/place_order.go:52-66 | items come out iff every line has a positive quantity of a known active product, in order and at the current price; else the first bad line decides between not found and validation |
| PlaceOrders.EarlyErrorExact | internal/application/command/place_order.go:52-82 | a request reaches the pool iff its lines are good and in one currency, it has a key and the pool takes tasks; unavailable, not found and validation errors by their causes |
| PlaceOrders.EventsTellTheRow | internal/application/command/place_order.go:85-89 | from any store the published events replay to the status of the row, except that a rejected order has no row, and that a charged order is announced as paid while its row is reserved iff no payment is in its way and one of its products already had a negative reserved count; and exactly when a payment is announced but not recorded |
| PlaceOrders.FalseAnnouncementIff | internal/application/command/place_order.go:85-89 | a refused transaction two announces the order as paid iff it was charged, no payment is in the way and the reserved counts do not cover it, and announces the payment whenever it is refused |
| Guarantees.SettlingAnnouncesIff | internal/application/command/place_order.go:85-89 | the same of every settling worker in every run whatsoever |
| Guarantees.SettlingTellsTheRows | internal/application/command/place_order.go:85-89 | in disciplined runs the events of a settling worker replay to its order row's status and tell its payment row's |
| PlaceOrders.EventsTellOutcome | internal/application/command/place_order.go:85-89 | in a sound store the outcome decides exactly which order and payment events are published, with the reason of a failed payment |
| PlaceOrders.PlaceOrder.Handle | internal/application/command/place_order.go:47-95 | a key that has an order changes neither rows nor charges, and returns that order unless the lookup fails; a new request ends with the error of EarlyError and no effect, or has the effect of Process, returns the fulfilled order or the error of the outcome by its kind, and publishes what Announced says, unsettled orders included |
| PlaceOrders.PlaceOrder.Place | internal/application/command/place_order.go:75-95 | the pool task and the publication after it: store, memo, the order or the error of each outcome by its kind, and all published events |
| PlaceOrders.PlaceOrder.Run | internal/application/command/place_order.go:97-191 | the statements of process have the effect of Process |
| PlaceOrders.PlaceOrder.FinishOrder | internal/application/command/place_order.go:125-190 | the loop and transaction two together are Finish, and record the events of FinishEvents |
| PlaceOrders.PlaceOrder.ReserveOrder | internal/application/command/place_order.go:98-118 | transaction one statement by statement is ReserveTx, all or nothing |
| PlaceOrders.PlaceOrder.ChargeWithRetry | internal/application/command/place_order.go:125-143 | the loop over RecordAttempt and Charge is ChargeLoop, also for maxAttempts < 1 |
| PlaceOrders.PlaceOrder.FailOrder | internal/application/command/place_order.go:146-161 | the statements after a decline are SettleTx for a decline, with their recorded events |
| PlaceOrders.PlaceOrder.CommitOrder | internal/application/command/place_order.go:169-182 | paying, committing the lines, fulfilling and writing back: all of it, or a conflict with the events recorded so far |
| PlaceOrders.PlaceOrder.FulfilOrder | internal/application/command/place_order.go:163-182 | the statements after a charge are SettleTx for a charge, with their recorded events |
| PlaceOrders.PlaceOrder.SettleOrder | internal/application/command/place_order.go:145-185 | transaction two is SettleTx, all or nothing |
| PlaceOrders.PlaceOrder.CollectItems | internal/application/command/place_order.go:52-66 | the loop over request lines returns the items, or the error of the first bad line |
| Stores.StepLinesExact | internal/infrastructure/persistence/gormrepo/inventory_repo.go:38-82 | a loop of guarded updates goes through iff each product's summed quantity is covered, repeated products included, and then moves exactly those sums |
| Stores.QtyAppend | internal/application/command/place_order.go:102-110 | quantities and lines of a product add up over lists of lines |
| Stores.OneLine | internal/domain/order/order.go:29-40 | a line counts for its own product, with its quantity |
| Stores.LineOrderIsIrrelevant | internal/application/command/place_order.go:102-110 | neither the verdict nor the effect of such a loop depends on the order of the lines |
| Stores.ReserveTxExact | internal/application/command/place_order.go:98-118 | transaction one commits iff the key is new and stock covers every sum; the error otherwise; the rows it leaves |
| Stores.SettleTxExact | internal/application/command/place_order.go:145-185 | transaction two commits iff no payment is in its way and reserved covers the order; the rows it leaves; the error otherwise |
| Stores.CancelTxExact | internal/application/command/cancel_order.go:34-58 | the cancelling transaction commits iff the order read is cancellable, held stock is covered and a paid order's payment is refundable; the rows it leaves |
| Stores.CancelErrorExact | internal/application/command/cancel_order.go:34-58 | the error of a cancellation that does not commit, by what is in its way first: conflict, not found or internal |
| Stores.StatusTxExact | internal/application/command/update_order_status.go:34-49 | a manual change is accepted iff the diagram has that edge, or from paid to failed; the row then has the target status, and for a failure its reason, and nothing else changes; the error otherwise |
| Stores.ReadableIffTotalFits | internal/domain/order/order.go:69-80 | the row of a new order can be read back iff its items can and its exact total modulo 2^64 is below 2^63 |
| Stores.ItemsFaultExact | internal/infrastructure/persistence/gormrepo/order_repo.go:152-171 | stored items can be rebuilt iff every price is valid money and every quantity is positive; else the first bad item decides the error |
| Databases.Database.Reserve | internal/infrastructure/persistence/gormrepo/inventory_repo.go:38-51 | one conditional update: iff available >= qty it moves qty to reserved and bumps the version, else nothing changes |
| Databases.Database.Release | internal/infrastructure/persistence/gormrepo/inventory_repo.go:53-68 | iff reserved >= qty it moves qty back, else a conflict and no change |
| Databases.Database.Commit | internal/infrastructure/persistence/gormrepo/inventory_repo.go:70-82 | iff reserved >= qty it removes qty from reserved, else a conflict and no change |
| Databases.Database.Restock | internal/infrastructure/persistence/gormrepo/inventory_repo.go:84-92 | adds to available; a missing row is no error |
| Databases.Database.CreateOrder | internal/infrastructure/persistence/gormrepo/order_repo.go:23-30 | inserts under a fresh id unless the key is taken; the id is assigned to the order only on success |
| Databases.Database.UpdateOrder | internal/infrastructure/persistence/gormrepo/order_repo.go:32-41 | writes status, total and reason of an existing row, no other column and no other row; a missing row is no error and adds none |
| Databases.Database.FindOrder | internal/infrastructure/persistence/gormrepo/order_repo.go:43-52 | the row as an order, or not found, or the fault that keeps it from being rebuilt |
| Databases.Database.CreatePayment | internal/infrastructure/persistence/gormrepo/payment_repo.go:23-30 | inserts unless the order or the key already has a payment |
| Databases.Database.FindPayment | internal/infrastructure/persistence/gormrepo/payment_repo.go:48-57 | the payment of an order, or not found, or an internal error for malformed money |
| Databases.Database.Rollback | internal/infrastructure/persistence/gormrepo/uow.go:55-59 | a failed transaction leaves the rows as they were before it |
| OrderCommands.CancelOrder.Handle | internal/application/command/cancel_order.go:25-65 | reads, then cancels in one transaction, and publishes the cancellation; any error leaves the rows as they were and publishes nothing |
| OrderCommands.CancelOrder.Statements | internal/application/command/cancel_order.go:34-58 | release, refund, cancel and update, in this order, are CancelTx |
| OrderCommands.UpdateOrderStatus.Handle | internal/application/command/update_order_status.go:19-32 | moves the status as the machine allows and touches no stock; any error leaves the rows as they were |
| OrderCommands.UpdateOrderStatus.Transition | internal/application/command/update_order_status.go:34-49 | each target status is the matching call on the order; pending is rejected |
| Gateways.MockGateway.Charge | internal/infrastructure/payment/mock_gateway.go:53-88 | recorded results stay, a success is the recorded result whoever recorded it, a known key is answered from the memo, and an unknown one is declined iff the reply refuses |
| GatewayCalls.MemoHolds | internal/infrastructure/payment/mock_gateway.go:53-88 | under any interleaving at the unlocked sleep: results never change or vanish, every success is the recorded result, a call begun after a success returns it |
| GatewayCalls.OneReferencePerKey | internal/infrastructure/payment/mock_gateway.go:76-87 | any two successful calls with one key return one reference |
| GatewayCalls.FinishIsExact | internal/infrastructure/payment/mock_gateway.go:62-87 | a decline returns its text and records nothing; an approval returns the recorded reference, which is its own iff the key had none |
| GatewayCalls.UndisturbedCallIsChargeOnce | internal/infrastructure/payment/mock_gateway.go:53-88 | an undisturbed call of the step system does what the method does |
| Inventories.RowRefinesAggregate | internal/infrastructure/persistence/gormrepo/inventory_repo.go:38-92 | for any series of positive operations the guarded updates and the aggregate accept the same ones and agree on available, reserved and version |
| Inventories.AgreementNeedsPositiveQuantity | internal/domain/inventory/inventory.go:48-95 | on one call they agree iff the quantity is positive |
| Inventories.RejectionsAreExact | internal/domain/inventory/inventory.go:48-95 | out of stock iff a reservation of a good quantity exceeds available; validation iff the quantity is bad or exceeds reserved |
| Inventories.UnitsMove | internal/domain/inventory/inventory.go:48-95 | units move between the counts, leave by a commit, come by a restock; a release undoes a reservation; which operations bump the version |
| Inventories.EventsExplainCounts | internal/domain/shared/event.go:12-20 | for any series of calls, wherever the outbox is pulled, all events so far replay to the current counts |
| Inventories.Inventory.Reserve | internal/domain/inventory/inventory.go:48-60 | new counts and recorded event, or the right error and no change; events keep explaining the counts |
| Inventories.Inventory.Release | internal/domain/inventory/inventory.go:62-73 | the same for a release |
| Inventories.Inventory.Commit | internal/domain/inventory/inventory.go:75-85 | the same for a commit |
| Inventories.Inventory.Restock | internal/domain/inventory/inventory.go:87-95 | the same for a restock |
| Inventories.Inventory.PullEvents | internal/domain/shared/event.go:16-20 | hands over and clears the outbox; the events pulled so far and the rest still explain the counts |
| Inventories.NewInventory | internal/domain/inventory/inventory.go:18-35 | succeeds iff the product id is set and both levels are non-negative |
| Orders.RunsFollowTheMachine | internal/domain/order/order.go:127-189 | over any calls: events replay to the status, rejected calls record nothing, every accepted call raises the rank so at most three succeed from pending, terminal statuses absorb |
| Orders.CodeAllowsOneMoreEdge | docs/diagrams/03-order-state.mmd:1-14 | the transitions of the code are those of the diagram plus paid to failed |
| Orders.NewOrder | internal/domain/order/order.go:61-97 | succeeds iff there are items, a key and one currency; the total is the exact sum of price times quantity modulo 2^64 |
| Orders.TotalAddsUp | internal/domain/order/order.go:69-80 | the exact total of two lists of items is the sum of theirs |
| Orders.TotalOfOneLine | internal/domain/order/order.go:47-47 | one line costs its unit price times its quantity, modulo 2^64 |
| MoneyModel.ArithmeticIsExact | internal/domain/shared/money.go:42-51 | sums and products are those of arithmetic modulo 2^64, exact when they fit; different currencies do not add |
| Orders.TotalIsExactIffItFits | internal/domain/shared/money.go:42-51 | the wrapped total is the exact one iff that is below 2^63, and zero iff it is a multiple of 2^64 |
| Orders.Order.MarkReserved | internal/domain/order/order.go:145-152 | the machine's answer: new status and event, or conflict and no change |
| Orders.Order.MarkPaid | internal/domain/order/order.go:154-161 | the same for paying |
| Orders.Order.MarkFulfilled | internal/domain/order/order.go:163-170 | the same for fulfilling |
| Orders.Order.Cancel | internal/domain/order/order.go:172-179 | the same for cancelling |
| Orders.Order.Fail | internal/domain/order/order.go:181-189 | the same for failing, with the reason kept |
| Payments.NewPayment | internal/domain/payment/payment.go:33-52 | succeeds iff order id, key and amount are set; a pending payment without attempts |
| Payments.RunsSettleOnce | internal/domain/payment/payment.go:95-138 | over any calls: attempts are counted one by one, reference and reason fit the status, and a settled payment stays settled with them |
| Payments.RefusalsAreExact | internal/domain/payment/payment.go:95-138 | which calls conflict with the status, and which are invalid |
| Payments.Payment.RecordAttempt | internal/domain/payment/payment.go:95-102 | counts an attempt and keeps the provider, or rejects an empty provider |
| Payments.Payment.MarkSucceeded | internal/domain/payment/payment.go:104-116 | pending to succeeded with a reference, checks in the order of the code |
| Payments.Payment.MarkFailed | internal/domain/payment/payment.go:118-129 | pending to failed with a reason, checks in the order of the code |
| Payments.Payment.Refund | internal/domain/payment/payment.go:131-138 | succeeded to refunded, else a conflict |
| Pools.RunsKeepInv | pkg/concurrency/workerpool.go:33-97 | in every run, capacity 0 included: accepted = queued + running + done with multiplicities, and nobody about to send finds the channel closed |
| Pools.AcceptedIsSent | pkg/concurrency/workerpool.go:55-83 | what counts as accepted over a run is exactly what the calls sent, with multiplicities |
| Pools.StopDrains | pkg/concurrency/workerpool.go:85-97 | if Start completed first, then once Stop has returned every accepted task has run exactly once, now and later |
| Pools.StopDrainsIffLaunched | pkg/concurrency/workerpool.go:33-46 | when Stop returns all accepted tasks have run iff Start had raised the wait group, or none was accepted |
| Pools.StopCanOvertakeStart | pkg/concurrency/workerpool.go:39-42 | a run in which Stop returns with an accepted task not run |
| Pools.DrainingMoves | pkg/concurrency/workerpool.go:48-66 | until a requested Stop has returned, some draining step is enabled |
| Pools.StopReturns | pkg/concurrency/workerpool.go:85-97 | after Stop is called any run has at most Measure draining steps, and when none is enabled Stop has returned and all tasks have run |
| Pools.EarlySubmitBlocksStart | pkg/concurrency/workerpool.go:55-66 | a Submit that blocks on a full queue before Start holds the lock for ever, and the pool never starts |
| Pools.Pool.Start | pkg/concurrency/workerpool.go:33-46 | starts the given number of workers, once; nothing after Start or Stop; waits while the lock is held |
| Pools.Pool.Submit | pkg/concurrency/workerpool.go:55-66 | accepts the task iff there is room, waits with the read lock held iff there is none, an error once stopped, nothing for no task |
| Pools.Pool.TrySubmit | pkg/concurrency/workerpool.go:68-83 | true only if the task was accepted; false only without a task, stopped or full, and then nothing changes |
| Pools.Pool.Stop | pkg/concurrency/workerpool.go:85-97 | the first call waits iff the lock is held; when it returns a started pool is drained and any other has kept its queue; later calls wait for it or return at once |
| EventBuses.EveryJobIsDelivered | internal/infrastructure/messaging/eventbus.go:90-117 | over any subscribes and publishes: owed jobs = in hand + queued + running + dispatched, each once, queued or inline; nothing is sent on the closed channel; all dispatched after Stop |
| EventBuses.SnapshotOwesMatching | internal/infrastructure/messaging/eventbus.go:90-98 | a snapshot owes each handler one job per named and per wildcard subscription at that moment |
| EventBuses.PublishedIsDispatched | internal/infrastructure/messaging/eventbus.go:90-117 | over any run with the subscriptions made before: once a started bus has stopped, each published event has been dispatched to each handler once for each of its subscriptions |
| EventBuses.RunSees | internal/infrastructure/messaging/eventbus.go:91-98 | over any run every published event is looked at once, or still waits |
| EventBuses.SubscribeReaches | internal/infrastructure/messaging/eventbus.go:48-53 | a subscription adds one job for the events of its name, and for all of them under the wildcard |
| EventBuses.OwedCounts | internal/infrastructure/messaging/eventbus.go:90-110 | a list of events owes each handler one job for each occurrence and subscription |
| EventBuses.InProcessBus.Subscribe | internal/infrastructure/messaging/eventbus.go:48-53 | from now on exactly the events of the handler's name, all for the wildcard, reach it too, after the handlers that were there |
| EventBuses.InProcessBus.Publish | internal/infrastructure/messaging/eventbus.go:90-110 | for every event and handler the jobs queued or run inline grow by the event's occurrences times the handler's subscriptions, with workers running beside it |
| EventBuses.InProcessBus.Offer | internal/infrastructure/messaging/eventbus.go:102-106 | queued while there is space, handed to a parked worker or run by the publisher when the buffer is full |
| EventBuses.InProcessBus.Stop | internal/infrastructure/messaging/eventbus.go:112-117 | the first call on a started bus returns with everything sent handled once; one that was never started keeps its queue; later calls change nothing |
| Dispatchers.HandedOverOnce | internal/infrastructure/notification/dispatcher.go:74-97 | no notification is handed over twice; one refused by a full queue never, its row untouched; after Stop every other one exactly once; the row tells the outcome |
| Dispatchers.HandoverIsRecordedIff | internal/infrastructure/notification/dispatcher.go:99-143 | the row is updated iff nothing panicked, the update worked and a send error had a text; then one attempt, sent or failed |
| Dispatchers.Dispatcher.Enqueue | internal/infrastructure/notification/dispatcher.go:74-90 | persists a fresh row, then queues it or leaves it; an error iff persisting failed, and then no trace |
| Dispatchers.Dispatcher.Attempt | internal/infrastructure/notification/dispatcher.go:99-143 | increment, send and mark give the row that ProcessNote says |
| Dispatchers.Dispatcher.Process | internal/infrastructure/notification/dispatcher.go:99-143 | one handover: the row, the queue and the outcome after it |
| Dispatchers.Dispatcher.Stop | internal/infrastructure/notification/dispatcher.go:145-150 | when the first call on a started dispatcher returns every queued notification has been handed over and its row tells how that went; one that was never started keeps its queue; later calls change nothing |
| Notifications.Notification.MarkSent | internal/domain/notification/notification.go:91-99 | queued or failed to sent with its event, else a conflict and no change |
| Notifications.Notification.MarkFailed | internal/domain/notification/notification.go:101-112 | to failed with a reason and its event; an empty reason or a sent notification is rejected without a change |
| Notifications.MarksAreExact | internal/domain/notification/notification.go:91-112 | sent is final, a failure needs a reason, a failed notification can still be sent; the data each leaves |
| Hubs.DeliveryHasNoGaps | internal/interfaces/http/ws/hub.go:42-71 | in every run a client's delivered messages and buffer are the contiguous handled broadcasts of its stay; its channel is closed exactly once after removal and never sent to afterwards |
| Hubs.AcceptedIsTaken | internal/interfaces/http/ws/hub.go:60-78 | the messages handled and still buffered are exactly those that Broadcast accepted, in order |
| Hubs.LeavesOnlyWhenFull | internal/interfaces/http/ws/hub.go:45-68 | a client leaves the set only by unregistering, with a full buffer of 256 messages, or when the hub returns |
| Hubs.Hub.Broadcast | internal/interfaces/http/ws/hub.go:73-78 | accepted if there is room, waiting iff there is none before Stop, dropped only once Stop was called |
| Hubs.Hub.HandleBroadcast | internal/interfaces/http/ws/hub.go:60-68 | every client with fewer than 256 buffered messages gets the head message, exactly the others are removed |
| Hubs.Hub.OfferToAll | internal/interfaces/http/ws/hub.go:61-68 | the loop has that effect in whatever order the map yields the clients |
| Hubs.Hub.HandleRegister | internal/interfaces/http/ws/hub.go:51-53 | the client joins at the current point of the broadcasts |
| Hubs.Hub.HandleUnregister | internal/interfaces/http/ws/hub.go:54-59 | a client in the set is removed and closed; one already removed is left alone |
| Hubs.Hub.CloseAll | internal/interfaces/http/ws/hub.go:45-50 | the last round removes and closes exactly the clients still in the set |
| Shutdown.NoSendOnClosed | internal/bootstrap/bootstrap.go:145-149 | in every run of pool, bus, dispatcher and hub together, nobody is about to send on a closed channel, and nobody broadcasts to a stopped hub |
| Shutdown.ShutdownDrains | internal/bootstrap/bootstrap.go:145-149 | after the last Stop every accepted task has run, every owed job is dispatched, every queued notification handed over once; the hub has returned or can take a step of its last rounds, and once returned has closed each client's channel once |
| ShutdownEnds.ShutdownCanMove | internal/bootstrap/bootstrap.go:145-149 | from the moment HTTP has drained until the end some step is enabled that drives the shutdown on or lets a waiting handler go on |
| ShutdownEnds.StepNears | internal/bootstrap/bootstrap.go:145-149 | each driving step brings the end nearer in a well-founded order of stages, work and rounds, and no step takes it farther away |
| ShutdownEnds.ShutdownFinishes | internal/bootstrap/bootstrap.go:145-149 | in every fair endless run a point comes at which all components have stopped, the hub has returned and everything accepted is done |
| Shutdown.BootedIsReached | internal/bootstrap/bootstrap.go:76-87 | creating the components and running their Start methods leads to the state from which these hold, for any sizes |
| DailyReports.DailyReport.ListAll | internal/infrastructure/persistence/gormrepo/order_repo.go:91-126 | the page with defaults for bad numbers, or the fault of its first row that cannot be rebuilt |
| DailyReports.DailyReport.ToDomain | internal/infrastructure/persistence/gormrepo/order_repo.go:173-183 | all rows in order, or the fault of the first bad one |
| DailyReports.DailyReport.Collect | internal/application/query/daily_report.go:86-99 | ends with exactly the prefix of length min(n, ceil(maxOrders / pageSize) * pageSize), iff that prefix can be rebuilt |
| DailyReports.DailyReport.Handle | internal/application/query/daily_report.go:31-84 | the number of those orders, their summed totals in int64, and exact counts per status that add up to it |
| DailyReports.ReportAddsUp | internal/application/query/daily_report.go:55-70 | revenue and status counts add up over lists of orders |
| DailyReports.ReportOfOne | internal/application/query/daily_report.go:55-70 | every order counts with its whole total, whatever its status, and once in its own status |
| DailyReports.StatusCountsAddUp | internal/application/query/daily_report.go:46-70 | the six status counts of any list add up to its length |

## Left out

- Database isolation: each transaction is one atomic step of the protocol. It writes only rows that its own statements have locked or created, reads made before it are steps of their own, and an error inside it undoes all of it; GORM and PostgreSQL are assumed to provide that.
- Database faults: a statement that fails for an outside reason inside a transaction is the step Abort, at the point where the transaction would have begun. A commit whose acknowledgement is lost is not modelled.
- The idempotency lookup of `Handle`: in the protocol any number of workers may be submitted with one key, found or not, which allows more runs than the lookup does; only the unique index is relied on. `UpdateOrderStatus` likewise reads in a step of its own.
- Hand-made status changes and overlapping cancels in the ledger: the ledger is false with them, as `LedgerCanBreak`, `OverlapCanBreak` and `StatusByHandCanBreak` show; the lemmas whose names end in `Iff` say when, and conservation covers them.
- PlaceOrders.ProcessOutcomes: assumes that references and error texts of the gateway are not empty, which the mock gateway makes true; a gateway that breaks it makes transaction two fail, as `SettleTx` says.
- Orders.NewOrder: user id, SKU, product name, creation time and error messages are dropped, since no branch depends on them.
- Integer width of stock: counts and quantities of units are unbounded; only money wraps at 64 bits.
- Inventories.Inventory.Restock: has no caller in the program; restocking is a step of the protocol all the same, with positive units.
- Inventories.NewInventory: the reorder level is checked and then dropped; nothing but a low-stock query reads it.
- Gateways.MockGateway.Charge: random declines, latency and cancelled contexts are one nondeterministic reply; loss of the memo on a restart is not modelled, so the protocol's memo lasts for the whole run, stops included.
- Payments.Payment.RecordAttempt: the provider is always "mock" in calls, as in the code; back-off sleeps between attempts are left out.
- Pools.Pool.Submit: one uninterrupted call up to its return or its wait; what happens while it waits, and interleavings, are in the step system of the same module. The same holds for the methods of the bus, the dispatcher and the hub.
- Pools.Pool.Stop: a task that panics and so ends the program is left out.
- Pools.StopReturns: holds for tasks that end; that the scheduler takes an enabled step is the fairness that `ShutdownFinishes` assumes, together with handlers that do not enqueue for ever.
- EventBuses.InProcessBus.Publish: events carry a name and an id; what handlers do, and a handler that panics, is one finished job, as the recover in dispatch makes it.
- Dispatchers.Dispatcher.Enqueue: type, channel, subject and payload of a notification are left out, and a sweep of rows left queued does not exist in the code.
- Hubs.DeliveryHasNoGaps: assumes that each client registers once, as ServeWS does; socket errors, pings and the read and write pumps are left out except that a pump takes messages from the buffer. The hub is not drained at a stop, neither in the code nor here.
- Shutdown.ShutdownDrains: the RabbitMQ publisher and consumer, which stop after the hub, are not part of it; HTTP is taken to have drained first, and a handler to enqueue or broadcast one thing at a time. The hub's goroutine returns on its own after its Stop, as in the code; that it does is `ShutdownFinishes`.
- DailyReports.DailyReport.Collect: the table is read in one fixed order and does not change meanwhile. The query asks for no order and uses no transaction, so the database does not promise either. The date parameter selects nothing in the code and is left out.
- HTTP handlers, middleware, rate limiting, JWT, password hashing, configuration, logging, metrics, seeding, and the user, product and audit aggregates: wiring, library calls or easy members.
