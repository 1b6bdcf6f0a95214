# Verification of the commerce back end's core

This project models the parts of the back end in which rows depend on each other, and proves what every
run of them keeps. Tables are sequences of rows in creation order (or maps by primary key), decimals are
exact reals, ids are strings that are only compared, and the clock is a parameter. A transaction is one
step: it commits, or it leaves every table as it was. Services that update rows in place are classes whose
methods run the same checks, loops and guarded updates; each method is proved to leave exactly the state
that a function of the old state gives, and the results below are about those functions over whole runs.

- **Inventory** (`Fifo`, `Identity`, `Ledger`, `Agreement`, `KeyedCommands`, `LateReservation`,
  `EffectCounts`, `ReservationPromise`, `InventoryService`, `OrderEvents`): receive, issue, adjust, reserve,
  release, settle and restock over item summaries, cost batches, reservations and movements. FIFO consumption
  is exact, greedy and additive; the summaries agree with batches and reservations, and a reservation can be
  kept, each under a condition on the steps that is shown exact; a keyed command that comes again is absorbed,
  if and only if the reservation it closes was known; an order event that is retried resumes where it stopped.
- **Orders through the outbox** (`OrderDelivery`): workers claim, handle, die, are released as stuck and start
  again item by item, among all other commands. No effect of an item is there twice. When its event is
  PROCESSED a creation's reservation and a payment's stock-out are there once, and so is the closing of a
  reservation, unless the item was last dealt with before that reservation had been made.
- **Stock and books** (`Books`, `BooksBalance`, `BooksGrowth`, `BooksSettled`, `Deliveries`): receipts, the
  ledger, outbox handlers and the repair loop interleave freely. The inventory account tracks the valuation of
  the batches under a condition on each step that is shown exact, and is that valuation once everything has
  been handled; a receipt line is stocked in at most once, and exactly once after either path has succeeded.
- **Receiving** (`GoodsReceipts`): received quantities are the sums of the receipts, and the order status
  classifies them. The check of a receipt lets one identity on two items exceed the ordered quantity.
- **Categories** (`Categories`, `CategoryIndex`, `CategoryTree`, `Breadcrumb`): the path index stays exact under
  creation, moves and deletion, the forest acyclic, the tree builder loses and repeats nothing, and a breadcrumb
  is the ancestor chain.
- **Outbox** (`Outbox`, `OutboxDrain`, `EventBus`): claims, marks, retries and stuck releases by any number
  of workers, dispatch to handlers by priority, and the drain by one processor.
- **Payments** (`Payments`, `PaymentChains`, `PaymentReplays`, `PaymentsService`): refunds chain up and
  conserve money, a paid order is covered, and a replayed request is absorbed unless it was crossed.
- **Reports** (`BalanceSheet`): the balance-sheet equation with its rounding bound.
- **Workflows** (`Workflow`): a run that fails anywhere, resumed, equals a run in which nothing fails.

Where a promise does not hold of the code as it stands, a short history of requests shows it, and the condition
under which it does hold is proved:

- The summary of a stock item leaves its reservations (`StrayRelease.StrayReleaseDisagrees`): a release lowers
  the row that its request names, not the one the reservation was made on. It leaves its batches
  (`StrayIssue.StrayIssueDisagrees`): an issue that names no stock item draws on those of any. The summary of a
  product leaves its reservations when a release names another product
  (`ForeignRelease.ForeignReleaseDisagrees`). Exactly which steps keep a summary in agreement:
  `Agreement.EveryTransactionKeeps`; exactly which keep that of every product:
  `Agreement.ProductsAreTrackedExactly`.
- Reserved stock is taken by an issue for no reservation (`TakenStock.SaleBreaksThePromise`). Exactly which
  steps keep what is reserved on hand: `ReservationPromise.EveryStepKeepsThePromise`.
- A settlement delivered again closes a reservation that was made after it
  (`LateReservation.EarlySettlementIsNotAbsorbed`). Exactly when a keyed command is absorbed for good:
  `LateReservation.AbsorbedExactlyWhenKnown`; exactly when a retry of an order event resumes, and when its
  redelivery is absorbed: `OrderEvents.RetryResumes`, `OrderEvents.RedeliveryIsAbsorbed`.
- The inventory account leaves the valuation though everything is handled: after a lowering adjustment with a
  cost of its own that draws on batches without cost (`BooksApart.AccountLeavesTheValuation`), and after a
  receipt in a unit that is not the base unit (`BooksApart.BoxLeavesTheValuation`). Exactly which steps keep
  the books in order: `BooksBalance.EveryStepKeepsOrder`; exactly which keep the balance itself:
  `BooksBalance.BookedExactly`.
- A receipt books more than was ordered (`GoodsReceipts.RepeatedIdentityOvershoots`). Exactly which accepted
  receipts stay within the order: `GoodsReceipts.FittingReceiptsExactly`.
- A payment request that was answered by its reference changes another payment when it is sent again
  (`PaymentReplays.CrossedRequestIsNotAbsorbed`). Exactly which requests that succeeded are absorbed for good:
  `PaymentReplays.AbsorbedExactlyUnlessCrossed`.
- A workflow run stays RUNNING for good (`Workflow.LostStartLogStrands`, `Workflow.LostFailLogStrands`).
  Exactly which failures do this: `Workflow.StrandsExactly`.

Each history is small enough to read in its module; `Samples` holds the catalogue that most of those
over stock share.

## Model

| member | source | states |
|---|---|---|
| Fifo.CandidateMembers | src/modules/inventory-batch/batch.service.ts:12-39 | the batch queries list every unexpired or never-expiring batch in scope that holds stock, and no other |
| Fifo.CandidatesAreOrdered | src/modules/inventory/inventory.repository.ts:232-270 | the list runs by expiry then creation, and the batches without expiry come last by creation |
| Fifo.ConsumeIsExactAndGreedy | src/modules/inventory-fifo/fifo.service.ts:35-75 | consumption succeeds exactly when the eligible stock covers a positive quantity; allocations are positive, sum to it, follow the order, drain every batch before the last, and are what the batches lose |
| Fifo.ConsumeIsAdditive | src/modules/inventory-fifo/fifo.service.ts:39-75 | consuming a and then b, with the queries asked again in between, leaves the same batches, per-batch totals and cost as consuming a + b |
| Fifo.ConsumeDeducts | src/modules/inventory-fifo/fifo.service.ts:45-72 | only eligible batches are drawn on, none below zero, each at its own unit cost |
| Fifo.ConsumeCostsTheDrop | src/modules/inventory-fifo/fifo.service.ts:45-72 | the cost of the allocations is exactly the value the batches lose |
| Fifo.ConsumeDropsStock | src/modules/inventory/inventory.repository.ts:484-490 | a product or stock item that covers every candidate loses the whole quantity, one that covers none loses nothing |
| Fifo.EligibleStockDrops | src/modules/inventory-fifo/fifo.service.ts:39-75 | the stock still eligible after a consumption is what was eligible less the quantity |
| Fifo.CostIsPositiveExactly | src/modules/inventory-fifo/fifo.service.ts:45-72 | a consumption costs something if and only if the candidates before some batch with a cost hold less than the quantity |
| Fifo.DrawsOnExactly | src/modules/inventory-fifo/fifo.service.ts:39-75 | a consumption lowers the stock of a product or stock item if and only if the candidates before some batch of it hold less than the quantity |
| Identity.ResolvedIsOfTheProduct | src/modules/inventory/inventory-identity-resolver.service.ts:30-193 | a resolved write names the requested product, a tracked active stock item of it if any, and a positive base quantity |
| Ledger.Upserted | src/modules/inventory/inventory.repository.ts:78-127 | the row exists afterwards, and a missing one is added with zero quantities and nothing else changed |
| Agreement.EveryTransactionKeeps | src/modules/inventory/inventory.service.ts:226-1001 | each of the seven transactions keeps rows unique and owned, and keeps a scope in agreement with batches and reservations if and only if what it takes and what it closes fall on the scope's own row, which the request, the master data and the tables tell beforehand |
| Agreement.SummariesAgreeWithDetail | src/modules/inventory/inventory.service.ts:266-283 | in every state of a run of such steps the on-hand quantities of a product or stock item sum to what its batches hold, and its reserved quantities to what its active reservations promise |
| Agreement.GiveBackAgreesExactlyWhenItFits | src/modules/inventory/inventory.service.ts:888-911 | giving a reservation back moves no stock, and keeps the reserved quantity of a scope in agreement if and only if the row it lowers is in the scope exactly when the reservation is |
| Agreement.ProductsAgree | src/modules/inventory/inventory.service.ts:266-283 | in every reachable state every product agrees, if releases and settlements name the product of a reservation made without a stock item |
| Agreement.ProductsAreTrackedExactly | src/modules/inventory/inventory.service.ts:888-911 | a transaction keeps the agreement of every product if and only if a release or settlement names the product of a reservation made without a stock item |
| StrayIssue.StrayIssueDisagrees | src/modules/inventory/inventory.service.ts:456-472 | an issue that names no stock item commits, draws on an item's older batch, and leaves the item's row above its batches |
| ForeignRelease.ForeignReleaseDisagrees | src/modules/inventory/inventory.service.ts:888-911 | a release of one product under the key of another's reservation commits, after which neither product agrees |
| StrayRelease.StrayReleaseDisagrees | src/modules/inventory/inventory.service.ts:888-911 | reserved before the stock item is listed and released after, a reservation lowers the item's row, which then promises less than it has reserved, and the item's own reservation can no longer be released |
| Agreement.ConsumeTakes | src/modules/inventory/inventory.service.ts:456-472 | a consumption takes from a scope what the row of its request loses if and only if it does not draw on a stock item that it does not name |
| KeyedCommands.SuccessTakesEffect | src/modules/inventory/inventory.service.ts:964-1001 | a keyed command that succeeds has its full effect recorded if and only if the reservation it closes was known; no recorded effect is lost |
| KeyedCommands.EffectedIsAbsorbed | src/modules/inventory/inventory.service.ts:236-257 | delivering a command whose effect is recorded changes no table |
| KeyedCommands.EffectLasts | src/modules/inventory/inventory.service.ts:714-730 | a recorded effect stays recorded through any run |
| KeyedCommands.KeyedCommandsAreAbsorbed | src/modules/inventory/inventory.service.ts:421-442 | a keyed command delivered again at any later point of any run, under any master data, changes nothing |
| LateReservation.AbsorbedExactlyWhenKnown | src/modules/inventory/inventory.service.ts:849-1001 | in every reachable state a keyed command that succeeds is absorbed at every later delivery if and only if the reservation it closes, if any, was known |
| LateReservation.LateReservationIsClosed | src/modules/inventory/inventory.service.ts:964-1001 | from any such state the reservation can still be made, stands active, and is released by the old command delivered again |
| LateReservation.EarlySettlementIsNotAbsorbed | src/modules/inventory/inventory.service.ts:964-1001 | a settlement, then its reservation, which is active, then the settlement again, which changes the tables |
| LateReservation.RunsKeepSigns | src/modules/inventory/inventory.repository.ts:203-221 | in every reachable state no row's reserved quantity is negative |
| EffectCounts.CommandIsCounted | src/modules/inventory/inventory.service.ts:236-257 | every command keeps each movement key, reservation and release in the tables once or not at all, and findable exactly when it is there |
| ReservationPromise.ReservationsCanBeKept | src/modules/inventory/inventory.service.ts:751-791 | in every state of a run whose steps take no more of a stock item than is available besides what they settle, reserved stays within on hand, and settling any active reservation succeeds if and only if the unexpired stock covers it, which it does as long as none has expired |
| ReservationPromise.SettlingSucceeds | src/modules/inventory/inventory.service.ts:964-1001 | in such a state a settlement meets no error but a shortage of unexpired stock |
| ReservationPromise.EveryStepKeepsThePromise | src/modules/inventory/inventory.service.ts:751-791 | a transaction keeps reserved within on hand if and only if it takes no more than is available besides what it settles |
| ReservationPromise.SettlementsSpare | src/modules/inventory/inventory.service.ts:964-1001 | settling an active reservation by its own quantity takes no more than is available besides it |
| TakenStock.SaleBreaksThePromise | src/modules/inventory/inventory.service.ts:412-533 | eight of ten are reserved and five issued for no reservation: five are on hand for eight reserved, and the reservation can no longer be settled |
| InventoryService.Service.UpsertItem | src/modules/inventory/inventory.repository.ts:78-127 | the items become the old ones with the row there |
| InventoryService.Service.DecrementItemQuantity | src/modules/inventory/inventory.repository.ts:160-178 | the guarded decrement takes the quantity from the one row, or changes nothing when it holds too little |
| InventoryService.Service.ReserveItemQuantity | src/modules/inventory/inventory.repository.ts:180-201 | reserves on the row only within what is available |
| InventoryService.Service.ReleaseReservedQuantity | src/modules/inventory/inventory.repository.ts:203-221 | gives back on the row only what it has reserved |
| InventoryService.Service.TakeInOrder | src/modules/inventory-fifo/fifo.service.ts:39-75 | the loop gives every batch its share, and leaves something over exactly when the candidates hold too little |
| InventoryService.Service.ConsumeFifo | src/modules/inventory-fifo/fifo.service.ts:27-76 | batches and allocations, or the error, are those of the specified consumption |
| InventoryService.Service.StockInInTransaction | src/modules/inventory/inventory.service.ts:226-334 | commits the specified receipt or reports its error |
| InventoryService.Service.StockOutInTransaction | src/modules/inventory/inventory.service.ts:412-533 | commits the specified issue or reports its error |
| InventoryService.Service.AdjustInTransaction | src/modules/inventory/inventory.service.ts:535-702 | commits the specified adjustment, up or down, or reports its error |
| InventoryService.Service.ReserveInTransaction | src/modules/inventory/inventory.service.ts:704-847 | commits the specified reservation or reports its error |
| InventoryService.Service.ReleaseInTransaction | src/modules/inventory/inventory.service.ts:849-962 | commits the specified release or reports its error |
| InventoryService.Service.SettleInTransaction | src/modules/inventory/inventory.service.ts:964-1037 | issue and release commit together or not at all |
| InventoryService.Service.RestockInTransaction | src/modules/inventory/inventory.service.ts:1102-1264 | the return comes in at the cost of the order's last movement, else of the last batch, else at zero |
| InventoryService.Service.Transact | src/modules/inventory/inventory.service.ts:150-224 | any command leaves the tables the specification gives, and the old ones when it fails |
| OrderEvents.Handle | src/modules/inventory/inventory-order-events.handler.ts:24-123 | the handler issues one keyed command for each tracked item up to the first that fails, and reports how far it came |
| OrderEvents.RetryResumes | src/modules/inventory/inventory-order-events.handler.ts:53-95 | after any other commands, under later master data and at a later time, a retry from the first item acts like an attempt on the items not dealt with if and only if no item dealt with has an active reservation by then; those whose reservation was there have none |
| OrderEvents.RedeliveryIsAbsorbed | src/modules/inventory/inventory-order-events.handler.ts:24-123 | an order event handled to its end and delivered again after any run changes nothing if and only if no reservation of its items is active by then; those that were there at its handling are not |
| OrderEvents.CompletedIsDone | src/modules/inventory/inventory-order-events.handler.ts:24-123 | when a call gets to the end every item has its reservation made or its stock taken out, and is in full effect if its reservation was there |
| OrderDelivery.ItemsActExactlyOnce | src/modules/inventory/inventory-order-events.handler.ts:24-123 | in every interleaving of workers, deaths mid-handler, stuck releases, retries and other commands, no effect of a tracked item is in the tables more than once; when the event is PROCESSED a creation's reservation and a payment's stock-out are there exactly once, and every effect is unless the item was last dealt with before its reservation had been made |
| OrderDelivery.StepDelivers | src/infrastructure/event-bus/event-bus.service.ts:153-182 | every step keeps it that items behind a worker's cursor, and all items of a PROCESSED event, are done, and in effect unless they were dealt with early |
| OrderDelivery.CreationFirstIsEnough | src/modules/pos/pos.service.ts:189-225 | however creation and payment are published, every effect of the item is there exactly once if the creation is PROCESSED before the item is dealt with |
| OrderDelivery.EarlyWasDealtWith | src/modules/inventory/inventory-order-events.handler.ts:53-95 | an item counts as early only if some step of the run dealt with it while its reservation was unknown |
| OrderDelivery.WorldIsAnOutboxRun | src/infrastructure/event-bus/outbox.repository.ts:21-143 | the outbox inside any such operation has run by its own steps, so the bounds on attempts and holders apply |
| Books.PurchaseKeyIsInjective | src/modules/inventory/inventory-purchase-events.handler.ts:22-51 | the stock-in key of a receipt line tells its receipt and its line |
| BooksBalance.InventoryAccountTracksValuation | src/modules/accounting/accounting-domain-events.handler.ts:106-225 | in every history of booked steps the inventory balance plus the amounts of events not journalled equals the batch valuation plus the worth of lines not stocked in |
| BooksSettled.InventoryAccountIsValuation | src/modules/accounting/accounting.service.ts:216-457 | when every stock event has been handled, every receipt handled or repaired and every line delivered, in any order and however often, the inventory account equals the valuation of the batches |
| BooksSettled.HandledEventIsSettled | src/modules/accounting/accounting-domain-events.handler.ts:106-225 | an event handled at any step is journalled at the end, or carried no amount |
| BooksBalance.EveryStepKeepsOrder | src/modules/reconciliation/reconciliation.service.ts:322-410 | receiving, handling and repairing always keep the books in order; delivering a line and moving stock do if and only if the step is booked, which the request, the master data and the batches tell beforehand |
| BooksBalance.BookedExactly | src/modules/reconciliation/reconciliation.service.ts:322-380 | a step is booked if and only if the balance holds after it, and still holds when the repair loop comes to its movement before the handler does |
| BooksBalance.MoveStockKeeps | src/modules/inventory/inventory.service.ts:226-702 | any of the seven commands keeps the books in order if and only if what it writes is journalled at its cost: receipts in base units or for nothing, issues for orders in base units, lowering adjustments covered |
| BooksBalance.DeliverLineKeeps | src/modules/inventory/inventory-purchase-events.handler.ts:22-51 | a delivery that stocks a line in keeps the books in order if and only if the line is in base units or costs nothing |
| BooksGrowth.HistoryGrows | src/modules/accounting/accounting.service.ts:216-457 | movements, events, receipts, lines and entries are only ever appended |
| BooksBalance.PostMovesAmount | src/modules/accounting/accounting-domain-events.handler.ts:111-217 | an entry made once moves exactly the pending amount of its event into the account |
| BooksBalance.PostingCarriesTheAmount | src/modules/accounting/accounting-domain-events.handler.ts:111-217 | a posting that is made carries the event's amount on the right side of the account, and one that is skipped would have carried nothing |
| BooksBalance.LoweringIsBookedAtCostExactly | src/modules/accounting/accounting-domain-events.handler.ts:183-217 | a committed lowering adjustment books what the batches lose if and only if it gives no cost of its own or meets a batch with a cost before the candidates ahead of it cover the quantity |
| BooksApart.AccountLeavesTheValuation | src/modules/accounting/accounting-domain-events.handler.ts:183-217 | stock found at no cost and lowered at a cost of five: all is handled, the batches are worth nothing, and the account is at minus five |
| BooksApart.BoxLeavesTheValuation | src/modules/inventory/inventory.service.ts:266-328 | one box of twelve received for twelve: all is handled, the account has twelve, and the batches are valued at a hundred and forty-four |
| BooksBalance.ReceiptWorths | src/modules/reconciliation/reconciliation.service.ts:381-410 | the repair loop's total of a receipt is the total its event carried |
| Deliveries.StockInFromPurchase | src/modules/inventory/inventory-purchase-events.handler.ts:22-51 | the handler delivers line by line up to the first failure, and each delivered line is in stock |
| Deliveries.ReconcilePurchaseReceipts | src/modules/reconciliation/reconciliation.service.ts:124-190 | after a pass every line is in stock or an exception, and only lines that were missing become exceptions |
| Deliveries.AtMostOneStockIn | src/modules/inventory/inventory.service.ts:236-257 | under any interleaving a receipt line has at most one stock-in movement, with its own product, quantity and cost |
| Deliveries.ExactlyOnceAfterSuccess | src/modules/reconciliation/reconciliation.service.ts:124-190 | once either path has succeeded for a line there is exactly one, whatever follows |
| GoodsReceipts.ItemKeyIsIdentity | src/modules/goods-receipts/goods-receipts.service.ts:301-311 | the key of an item tells product, stock item and unit, and whether the latter two are given |
| GoodsReceipts.ReceivingConservesAndClassifies | src/modules/goods-receipts/goods-receipts.service.ts:161-190 | in every reachable state a line's received quantity is the sum over all receipts, and an order with receipts that is not cancelled is RECEIVED exactly when every line is filled, else PARTIALLY_RECEIVED |
| GoodsReceipts.EveryCommandConserves | src/modules/purchase-orders/purchase-orders.service.ts:138-203 | approval, cancellation and receipts each keep sums and classification |
| GoodsReceipts.NeverOverReceived | src/modules/goods-receipts/goods-receipts.service.ts:118-138 | when each receipt names an identity once, no line ever exceeds its ordered quantity |
| GoodsReceipts.OverfilledOnlyByRepeats | src/modules/goods-receipts/goods-receipts.service.ts:127-135 | an accepted receipt overfills only a line whose identity it names more than once |
| GoodsReceipts.FittingReceiptsExactly | src/modules/goods-receipts/goods-receipts.service.ts:118-138 | a receipt is accepted and overfills nothing if and only if its items are on the order and those of each identity together fit the open quantity |
| GoodsReceipts.RepeatedIdentityOvershoots | src/modules/goods-receipts/goods-receipts.service.ts:118-138 | a run places and approves an order of ten, and receives six and six in one receipt: twelve are booked |
| GoodsReceipts.GoodsReceiptsService.IndexLines | src/modules/goods-receipts/goods-receipts.service.ts:73-85 | the map holds every line at its identity, and two lines of one identity are refused |
| GoodsReceipts.GoodsReceiptsService.CheckReceipt | src/modules/goods-receipts/goods-receipts.service.ts:118-138 | the first item that is not on the order or exceeds its open quantity is reported, else the receipt's total |
| GoodsReceipts.GoodsReceiptsService.UpdateReceivedQuantities | src/modules/goods-receipts/goods-receipts.repository.ts:83-96 | one increment per item fills each line by all quantities of its identity |
| GoodsReceipts.GoodsReceiptsService.Create | src/modules/goods-receipts/goods-receipts.service.ts:43-232 | a known request key changes nothing, an error changes nothing, and success books the specified receipt |
| CategoryIndex.PathIndexIsExact | src/modules/category/category.service.ts:48-120 | in every reachable state a path is the parent's path and the id, nothing descends from itself, and the prefix query finds exactly the proper descendants |
| CategoryIndex.PrefixQueryFindsDescendants | src/modules/category/category.repository.ts:58-70 | a path lies under another's prefix if and only if climbing parents leads from the one to the other |
| CategoryIndex.ForestIsAcyclic | src/modules/category/category.service.ts:171-195 | no category is its own ancestor |
| CategoryIndex.MoveKeepsIndex | src/modules/category/category.service.ts:76-96 | rewriting the prefix of a whole subtree keeps every path exact |
| CategoryIndex.MoveIsRefusedForCycles | src/modules/category/category.service.ts:171-195 | a move is refused exactly when the new parent is the category or a descendant, and changes no other parent |
| CategoryIndex.DeleteOrphansNothing | src/modules/category/category.service.ts:102-120 | a deletion is refused exactly when there are products or descendants, and removes only its category |
| CategoryIndex.EveryCommandKeepsIndex | src/modules/category/category.service.ts:25-120 | creation, move and deletion each keep the index |
| Categories.CategoryService.Create | src/modules/category/category.service.ts:25-46 | adds the category under its parent, or nothing when the parent is missing |
| Categories.CategoryService.FindDescendants | src/modules/category/category.repository.ts:58-70 | every row under the prefix, once each |
| Categories.CategoryService.UpdateWithDescendantPaths | src/modules/category/category.repository.ts:109-130 | the moved row and each listed descendant are rewritten, and no other row |
| Categories.CategoryService.ResolveParentForUpdate | src/modules/category/category.service.ts:171-195 | the parent, none for an empty id, or the refusal |
| Categories.CategoryService.Update | src/modules/category/category.service.ts:48-100 | moves the whole subtree, or nothing on an error, also when the path does not change |
| Categories.CategoryService.Delete | src/modules/category/category.service.ts:102-120 | removes the row or refuses |
| CategoryTree.GetTree | src/modules/category/category.service.ts:122-151 | each node holds its children in list order, and the roots are the categories without a listed parent |
| CategoryTree.TreeReadsAsTheListing | src/modules/category/category.service.ts:122-151 | the preorder of the tree is the path-sorted listing and nothing else: every category once, under its parent |
| CategoryTree.DescendantsLieTogether | src/modules/category/category.repository.ts:72-79 | in path order only descendants stand between a category and its descendant, for any collation that tells the characters of paths apart |
| CategoryTree.PreorderIsUnique | src/modules/category/category.service.ts:122-151 | a tree has one preorder |
| Breadcrumb.BreadcrumbIsTheChain | src/modules/storefront/store-catalog.service.ts:804-832 | splitting, trimming and looking up a path gives the ancestors from the root to the category |
| Breadcrumb.BreadcrumbSurvivesMoves | src/modules/storefront/store-catalog.service.ts:804-832 | after any run the breadcrumb, read from its end, is the climb along parents up to the root |
| Outbox.AttemptsAndHoldersAreBounded | src/infrastructure/event-bus/outbox.repository.ts:21-143 | in every interleaving attempts stay within ten plus the stuck releases, and until the first of those at most one worker holds an event |
| Outbox.StepIsSafe | src/infrastructure/event-bus/outbox.repository.ts:21-143 | claim, mark, retry, release and death of a worker each keep these bounds and the lock's meaning |
| Outbox.DeadLettersStayDead | src/infrastructure/event-bus/outbox.repository.ts:110-143 | an event that has failed ten times never becomes PENDING again and its attempts stand |
| Outbox.AttemptsCountClaims | src/infrastructure/event-bus/outbox.repository.ts:39-53 | attempts count the claims of an event and nothing else |
| OutboxDrain.OldestAreClaimed | src/infrastructure/event-bus/outbox.repository.ts:25-33 | a claimable row is left out of a claim only when the limit is reached with rows that are all older |
| OutboxDrain.CycleMakesProgress | src/infrastructure/event-bus/outbox-processor.service.ts:31-51 | a cycle that finds an unfinished event strictly lowers the attempts left |
| OutboxDrain.OutboxDrains | src/infrastructure/event-bus/outbox-processor.service.ts:31-51 | n events are processed or dead-lettered within 10 n cycles of one processor |
| OutboxDrain.ReliableEventsAreProcessed | src/infrastructure/event-bus/event-bus.service.ts:153-182 | an event with attempts left whose dispatches succeed ends PROCESSED whatever the others do |
| EventBus.CallsAreBounded | src/infrastructure/event-bus/event-bus.service.ts:119-151 | a handler is called for attempts 0, 1, ... at most retries + 1 times, never after a success, and fails only when all have failed |
| EventBus.DispatchIsBounded | src/infrastructure/event-bus/event-bus.service.ts:89-111 | a dispatch calls each SYNC handler at most retries + 1 times and no other, and each at least once when it succeeds |
| EventBus.SortIsStable | src/infrastructure/event-bus/event-bus.service.ts:90-93 | handlers run by priority and, within one, in the order they were registered; none is lost |
| EventBus.OutboxRepository.ClaimPendingBatch | src/infrastructure/event-bus/outbox.repository.ts:21-68 | claims the first claimable rows and counts an attempt on each |
| EventBus.EventBusService.Register | src/infrastructure/event-bus/event-bus.service.ts:19-27 | the handler joins those of its event behind the earlier ones |
| EventBus.EventBusService.Invoke | src/infrastructure/event-bus/event-bus.service.ts:119-151 | makes the specified calls and reports whether the last one worked |
| EventBus.EventBusService.Dispatch | src/infrastructure/event-bus/event-bus.service.ts:89-117 | succeeds exactly when every SYNC handler does, and only then queues the ASYNC ones |
| EventBus.EventBusService.ProcessOutboxBatch | src/infrastructure/event-bus/event-bus.service.ts:153-182 | every claimed row ends PROCESSED or FAILED by its own dispatch, and no other row changes |
| EventBus.OutboxProcessor.RunCycle | src/infrastructure/event-bus/outbox-processor.service.ts:31-51 | one cycle is release, retry and batch; a tick during a cycle does nothing |
| PaymentChains.ChainsConserveMoney | src/modules/payments/payments.service.ts:309-378 | each payment has at most one refund, its exact negation; an order's SUCCESS amounts sum to the root amounts of odd chains, and to nothing negative when those are not |
| PaymentChains.PaidMeansFullyPaid | src/modules/payments/payments.service.ts:611-651 | a PAID or COMPLETED order is covered by its SUCCESS payments in every reachable state |
| PaymentChains.EveryCommandKeepsSound | src/modules/orders/orders.service.ts:233-340 | recording, refunding, cancelling, completing and marking refunded each keep chains and coverage |
| PaymentChains.SuccessIsTerminal | src/modules/payments/payments.service.ts:579-600 | a SUCCESS payment is never written again |
| PaymentChains.ClosedOrdersStayClosed | src/modules/payments/payments.service.ts:86-106 | CANCELLED and REFUNDED are never left |
| PaymentChains.ChainCollapses | src/modules/payments/payments.service.ts:358-369 | a refund chain sums to its first amount when its length is odd and to nothing when it is even |
| PaymentReplays.PaymentReplaysAreAbsorbed | src/modules/payments/payments.service.ts:59-136 | a payment request that has taken effect changes nothing when it is sent again at any later point |
| PaymentReplays.SuccessTakesEffect | src/modules/payments/payments.service.ts:510-539 | the payment under the own key of a request that succeeds has got as far as the request asks, if and only if the key was known or no payment was found at all |
| PaymentReplays.AbsorbedExactlyUnlessCrossed | src/modules/payments/payments.service.ts:59-136 | a request that succeeded changes nothing whenever it is sent again, after any commands, if and only if its order takes it no more, or it has a key or a reference and was not answered by its reference under an unknown key for more than PENDING |
| PaymentReplays.CrossedRequestIsNotAbsorbed | src/modules/payments/payments.service.ts:515-539 | a run with such a request, another payment that takes its key, and the request again, which then changes that payment |
| PaymentsService.Service.RecordPayment | src/modules/payments/payments.service.ts:38-239 | the rows become those of the specified transaction, or stay when it throws |
| PaymentsService.Service.FinalizePaymentStatus | src/modules/payments/payments.service.ts:561-664 | an allowed transition is written with the order status it entails, any other is refused |
| PaymentsService.Service.RefundPayment | src/modules/payments/payments.service.ts:292-416 | one refund is appended and the order closed, an existing one is answered, or nothing changes |
| PaymentsService.Service.SumSuccessfulPayments | src/modules/payments/payments.repository.ts:234-249 | the sum of the order's SUCCESS amounts |
| PaymentsService.Service.UpdateStatusIfCurrent | src/modules/payments/payments.repository.ts:189-204 | writes the status only where the current one is as expected |
| PaymentsService.Service.UpdateOrderStatusIfCurrent | src/modules/payments/payments.repository.ts:206-223 | writes the order status only from one of the expected ones |
| PaymentsService.Service.Cancel | src/modules/orders/orders.service.ts:322-340 | an open order is cancelled, a cancelled one answered, any other refused |
| PaymentsService.Service.Complete | src/modules/orders/orders.service.ts:233-250 | only a paid order is completed |
| PaymentsService.Service.MarkRefunded | src/modules/orders/orders.service.ts:273-300 | only a paid or completed order is refunded, and a refunded one answered |
| BalanceSheet.NormalizeAndValidateLines | src/modules/accounting/journal/journal.service.ts:116-157 | exactly the double entries pass: two lines or more, each on one side, both sides equal |
| BalanceSheet.GroupByAccount | src/modules/accounting/accounting.controller.ts:482-532 | every account once with the sums of its rows; rows that are one to an account come out unchanged |
| BalanceSheet.Report | src/modules/accounting/accounting.controller.ts:337-389 | the three totals are the sums of the shown balances by type, with net income in equity |
| BalanceSheet.NetIncome | src/modules/accounting/accounting.controller.ts:353-361 | income shown less expenses shown |
| BalanceSheet.SheetBalances | src/modules/accounting/accounting.controller.ts:337-389 | for any journal of double entries and any cut, assets differ from liabilities and equity by at most half a cent an account, and not at all in whole cents |
| BalanceSheet.NetTotalIsLineTotal | src/modules/accounting/accounting.controller.ts:435-468 | regrouping lines by account loses and adds nothing |
| BalanceSheet.RoundingIsBounded | src/modules/accounting/accounting.controller.ts:523-531 | showing every balance to the cent moves the total by at most half a cent an account |
| BalanceSheet.RoundingCanShow | src/modules/accounting/accounting.controller.ts:523-550 | a double entry of half a cent over two accounts, finer than whole cents, shows one cent of difference |
| Workflow.EachActionAtMostOnce | src/modules/engine/workflow-engine.service.ts:106-157 | with failures at any await and any number of retries, the performed actions are a beginning of those due, each once |
| Workflow.ResumedRunEqualsUninterrupted | src/modules/engine/workflow-engine.service.ts:37-204 | a row in SUCCESS has the actions, and the performed rules, of the run in which nothing fails |
| Workflow.RetrySucceedsUnlessStuck | src/modules/engine/workflow-engine.service.ts:43-50 | a retry without failures succeeds if and only if the row is not left RUNNING |
| Workflow.StuckForGood | src/modules/engine/workflow-engine.service.ts:43-50 | once a row is left RUNNING no further run, whatever fails in it, changes the row or performs anything |
| Workflow.StrandsExactly | src/modules/engine/workflow-engine.service.ts:25-220 | a run leaves its row RUNNING if and only if the write that opens it takes effect and throws, the first log throws, or a later step throws and the catch block fails too |
| Workflow.LostStartLogStrands | src/modules/engine/workflow-engine.service.ts:106-106 | a first run whose start log fails: RUNNING with no rule performed, after any further runs |
| Workflow.LostFailLogStrands | src/modules/engine/workflow-engine.service.ts:186-204 | a first run that performs its rule and fails to checkpoint and to record the failure: RUNNING for good with the action performed |
| Workflow.AttemptIsConsistent | src/modules/engine/workflow-engine.service.ts:106-220 | one run, wherever it fails, leaves a checkpoint that matches what was performed |
| Workflow.StepOnTrack | src/modules/engine/workflow-engine.service.ts:113-157 | one rule of the loop keeps performed rules, outputs and checkpoint in step |
| Workflow.WorkflowEngine.ExecuteRules | src/modules/engine/workflow-engine.service.ts:113-157 | the loop performs, skips and checkpoints as specified up to the first failure |
| Workflow.WorkflowEngine.ExecuteWorkflow | src/modules/engine/workflow-engine.service.ts:25-220 | a run leaves the row and the performed rules that the specification gives for its failures |

## Left out

- Controllers other than the report arithmetic, request validation, guards, logging, audit writes, files,
  notifications and providers: plumbing around library calls.
- Pricing, carts, point of sale, vouchers, barcodes, addresses, authentication and stock transformations:
  they would only add easy members.
- Assets and serial numbers: stock is not tracked by unique asset, so the checks and writes that concern
  assets and serials are not modelled.
- Isolation: a transaction is one step. The paths that answer a unique-key violation raised by a concurrent
  transaction, and reads made before a transaction opens, are not modelled as separate steps.
- Column rounding: quantities and amounts keep all digits; decimal columns and the 20-digit arithmetic of
  the decimal library would round them.
- Category names and slugs, and with them the refusal of a duplicate name; the length limit of the path column.
- CategoryTree.GetTree: children are lists of ids in a map, not shared node objects.
- Agreement.EveryTransactionKeeps: assumes that a stock item keeps its product, which no request changes.
- Agreement.SummariesAgreeWithDetail: stated for runs of the steps that Agreement.EveryTransactionKeeps shows to
  be exactly those that keep the agreement.
- ReservationPromise.ReservationsCanBeKept: stated for runs of those steps that also keep the promise by
  ReservationPromise.EveryStepKeepsThePromise.
- BooksBalance.InventoryAccountTracksValuation: stated for histories of booked steps, the condition that
  BooksBalance.EveryStepKeepsOrder shows exact, in which commands other than deliveries leave purchase keys
  alone and receipts have new ids; there are no manual entries, journal keys are positions of movements and
  receipts, and only entries that touch the inventory account are modelled.
- BooksSettled.InventoryAccountIsValuation: stated for the same histories.
- OrderDelivery.ItemsActExactlyOnce: that an item dealt with early has its reservation closed by its event is
  not stated, as the reservation may be made later and stay; the event's other handlers are seen only in how
  the event is marked, and its refunds, whose restocks are keyed in the same way, are not among its messages.
- OrderEvents.RetryResumes: that a retry resumes only if no reservation is active is stated for orders whose
  items have distinct ids, as rows of one table do.
- BalanceSheet.RoundingCanShow: journal lines are stored with two decimals, so its amounts are finer than any
  stored ones; for stored lines BalanceSheet.SheetBalances is exact.
- Receipt configuration: the code reads a stock item's configuration only when a unit is named, so a receipt
  without a unit is not held to batch codes or expiry dates; the model follows the code.
- The description of receipts without an idempotency key: their request key, a digest of the request, is a
  parameter.
- OutboxDrain.OutboxDrains: which failed rows come first by update time is left open; any choice of the
  right number drains. The clock is read once for a claim and once for each mark.
- EventBus.EventBusService.Dispatch: queued ASYNC handlers are recorded, their later calls are not; they
  never touch the event's row.
- Events published by payments and orders, and OrdersService.markPaid, which marks an order paid without
  looking at its payments.
- Workflow.WorkflowEngine.ExecuteWorkflow: conditions and actions are a predicate and a function of the rule,
  an action that throws has not been performed, and executions without an event key, which are never
  retried, are not modelled.
- Invoices, supplier payments, sales and payment journal entries: they do not touch the inventory account.
