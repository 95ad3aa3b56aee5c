# GelatoFlow: models and proofs

A Dafny model of the stateful protocols of the GelatoFlow services, with proofs of what
they promise over every input and every run. `dafny verify dfyconfig.toml` checks it all.

## What is modelled

**Inventory engine** (`batch-inventory-service`). `InventoryModel` has the tables and each
stock transaction as a function to new tables or an error; an error carries no tables, so a
failed transaction changes nothing. `InventoryLaws`, `Fefo` and `InventoryInvariant` prove
what every transaction keeps. `Idempotency` is the claim/replay protocol of `mutateKeys`,
`InventoryStore` the calls of the service over stock, idempotency records and a clock.
`InventoryOutcomes` says which answer each transaction gives when, and what it leaves.
`InventoryRuns`, `InventoryTheorems` and `InventorySweep` lift the results to runs.
`InventoryEngine` is the service as it runs: a class whose fields are changed in place by
the allocation, write, settlement, claim and sweep loops, with rollback; each method equals
the function it stands for. `Locks` is the lock manager with any number of transactions.

**Order saga** (`order-service` over Inventory). `Orders.dfy` has the guarded row updates with
their outbox, as functions and as a class that performs them in place. `Saga` is the step
relation: order rows, outbox, reservations, Inventory's idempotency table, and a set of
execution points holding snapshots. Points are never removed, so an execution may act
late, act twice or never (crash, lost reply), and any number of callbacks, workers and
store cancellations race. `SagaInvariant`, `SagaSteps` prove the invariant of every act,
`SagaTheorems` and `SagaWedge` the results over runs. `Composition` runs the saga against the
full inventory with batches, ledger and settlement loops, and proves that every step of the
composed system is one act of the saga; `WedgeRun` is a run of it that wedges.

**Others.** `Fulfillment` (tickets, tombstones, queue numbers, history), `Catalog` (Redis
scripts: document compare-and-swap, name index, audit lists, replay records), `Analytics`
(daily projection with reversals), `Notification`, `Replay` and `HandOff` (ring buffer, merge,
read-out, and replay-to-live hand-off), `AuthOutbox` (lease with attempt fencing).

## Hypotheses

- Request hashes, lock-name hashes and version 5 UUID keys (section 5.5 of RFC 9562) are
  injective; identifiers are numbers and 0 stands for nil or unparsable text.
- The Inventory database clock never runs backwards; generated identifiers are new.
- Order's own clock is arbitrary: nothing relates it to Inventory's.
- Analytics has one consumer. Notification has one publisher that publishes each event id once.

## Findings

- A cancellation intent can wedge. `placeOrder` gives a reservation up under the order's
  release key with a reason of its own (order-service/internal/service/order_service.go:308
  and :314). If a concurrent retry of the same placement still saves the order, each later
  release with the persisted reason conflicts, and the order stays CANCEL_PENDING.
  `WedgeRun.WedgeHappens` gives such a run of the whole system for every order.
  `SagaTheorems.ReleaseAcceptedIff`, `SagaTheorems.CancellationFinishes` and
  `SagaWedge.WedgeIsForever` show that an intent can finish exactly when no such give-up was
  committed. All safety results hold regardless.
- A sale is saved before its processed-marker is written, and the marker's error is ignored
  (analytics-service/internal/service/analytics_service.go:167-174). A lost marker makes a
  redelivered sale count again (`Analytics.LostMarkerCountsTwice`); `Analytics.SaleCountsOnceIff`
  says exactly when it counts once. Reversals are safe.
- The replay of personal and broadcast notifications is documented to be in dispatch order.
  It is, exactly when no broadcast shares its instant with a later personal notification
  (`Notification.ReplayOrderIff`, `Notification.TieReorders`), and `HandOff.WrittenInOrderIff`
  carries the same condition over to what a connection writes.

## Model

| member | source | states |
|---|---|---|
| InventoryInvariant.SettlePreserves | batch-inventory-service/internal/inventory/reservations.go:180-218 | confirming, releasing, timing out or returning a reservation keeps the whole stock invariant: conservation, reservations = reserved/sold, waste records = wasted, ledger replay |
| InventoryInvariant.ReservePreserves | batch-inventory-service/internal/inventory/reservations.go:36-109 | a reservation keeps the whole stock invariant and never outlives a batch it holds |
| InventoryInvariant.DiscardPreserves | batch-inventory-service/internal/inventory/waste.go:56-67 | a waste report keeps the whole stock invariant |
| InventoryInvariant.CreatePreserves | batch-inventory-service/internal/inventory/batches.go:47-71 | production keeps the whole stock invariant, unique codes included |
| InventoryInvariant.ExpireBatchPreserves | batch-inventory-service/internal/inventory/reservations.go:375-410 | writing off an expired batch keeps the whole stock invariant |
| InventoryInvariant.GuardsNeverFire | batch-inventory-service/internal/inventory/reservations.go:180-211 | the guards "Reserved < Portions", "Sold < Portions" and the batch-expired refusal of a confirm are unreachable |
| InventoryTheorems.StockIsConserved | batch-inventory-service/internal/inventory/store.go:187-198 | after every call of every run: balances non-negative, initial = available + reserved + sold + wasted, reserved and sold = sums over ACTIVE and CONFIRMED reservations, wasted = waste records, and the movement ledger alone replays to the four balances |
| InventoryTheorems.HistoryOnlyGrows | batch-inventory-service/internal/inventory/store.go:187-198 | ledger and waste records are append-only, batches and reservations are never dropped, a reservation only moves forward, records never change |
| InventoryTheorems.MutationHappensOnce | batch-inventory-service/internal/inventory/store.go:74-157 | over any run, once a keyed call was answered, every later call sharing any of its keys leaves the stock alone; the same request that passes its input checks gets the same answer and all its keys are bound to it, unless another of its keys answers something else; any other request is refused and changes nothing |
| InventoryTheorems.StepBinds | batch-inventory-service/internal/inventory/waste.go:30-34 | an answered call binds all its keys, aliases included, to that answer; a failed one changes nothing |
| InventoryTheorems.ReorderedItemsAreOneRequest | batch-inventory-service/internal/inventory/reservations.go:24-25 | listing the items in another order yields the same hashed request |
| InventoryTheorems.ConfirmOutcome | batch-inventory-service/internal/inventory/reservations.go:157-177 | a confirm succeeds exactly for a CONFIRMED hold or an ACTIVE one in time, and is otherwise refused with the state error |
| InventoryTheorems.ReleaseOutcome | batch-inventory-service/internal/inventory/reservations.go:165-207 | a release succeeds exactly for ACTIVE, RELEASED and EXPIRED holds, with the status it leaves |
| InventoryTheorems.ReturnOutcome | batch-inventory-service/internal/inventory/reservations.go:244-305 | a return succeeds exactly for CONFIRMED and RETURNED holds |
| InventoryTheorems.TimeoutOutcome | batch-inventory-service/internal/inventory/reservations.go:162-179 | a timeout never fails and expires exactly overdue ACTIVE holds |
| InventoryTheorems.TimelyReleaseRestoresStock | batch-inventory-service/internal/inventory/reservations.go:189-207 | releasing an unexpired hold returns every portion to available and wastes none |
| InventoryTheorems.ReserveIsFefo | batch-inventory-service/internal/inventory/reservations.go:52-86 | a reservation allocates exactly what was asked per flavor from batches on sale, repeats none, never exceeds stock, and drains every batch on sale that expires (or was produced) earlier first |
| InventoryTheorems.ReserveAgreesWithEnquiry | batch-inventory-service/internal/inventory/batches.go:145-172 | out of stock exactly when Availability at that instant does not cover some item |
| InventoryTheorems.WasteCostFits | batch-inventory-service/internal/inventory/waste.go:74-76 | no write-off cost, and no total cost lost over a batch's life (unit cost x wasted), leaves 64 bits |
| InventoryTheorems.MalformedIsRefused | batch-inventory-service/internal/inventory/model.go:100-125 | a call with malformed items, ids, texts, portions or production is refused and changes nothing |
| InventoryTheorems.CallRuns | batch-inventory-service/internal/inventory/store.go:125-157 | a well-formed call none of whose keys was answered answers and commits exactly what its transaction yields, or fails and changes nothing |
| InventoryOutcomes.SavedIsLabelled | batch-inventory-service/internal/inventory/store.go:171-186 | a saved batch is EXPIRED exactly past its expiry, else EXHAUSTED exactly without stock, else ACTIVE; an archived one stays archived |
| InventoryOutcomes.CreateOutcome | batch-inventory-service/internal/inventory/batches.go:47-71 | production succeeds exactly before the expiry and with a new code, storing the request's own code, flavor, expiry, portions and cost with one movement |
| InventoryOutcomes.WasteOutcome | batch-inventory-service/internal/inventory/waste.go:36-72 | a waste report succeeds exactly for up to the last available portion of a batch that is not archived, and as expired only past expiry; each error has its condition, and the batch, record and movement are exact |
| InventoryOutcomes.ExpireBatchOutcome | batch-inventory-service/internal/inventory/reservations.go:375-410 | an expired batch ends EXPIRED with everything left of it wasted and recorded; any other batch is untouched |
| InventoryOutcomes.ReserveOutcome | batch-inventory-service/internal/inventory/reservations.go:29-98 | which error when; otherwise the whole plan is held until the first of the time limit and its batches' expiries, or refused if that has come |
| InventoryOutcomes.ReserveEffect | batch-inventory-service/internal/inventory/reservations.go:94-109 | its row, one RESERVED movement per allocation, and each batch's share moved from available to reserved |
| InventoryOutcomes.TransitionOutcome | batch-inventory-service/internal/inventory/reservations.go:139-222 | which answer when; a settlement leaves each batch's exact balances, one exact movement per allocation, exact waste records and the closed row with its reason |
| InventoryOutcomes.ReturnedOutcome | batch-inventory-service/internal/inventory/reservations.go:244-305 | the same for a return: unexpired stock goes back on sale, expired stock is wasted |
| InventorySweep.SweepCompletes | batch-inventory-service/internal/inventory/reservations.go:307-374 | a sweep that saw everything overdue leaves every batch expired by then EXPIRED with nothing available or reserved, whatever other calls interleave, and no later call undoes it |
| InventoryEngine.CheckItems | batch-inventory-service/internal/inventory/model.go:107-121 | accepts exactly 1 to 100 items of distinct known flavors with portions in range |
| InventoryEngine.AllocateRows | batch-inventory-service/internal/inventory/reservations.go:58-77 | the row loop computes the allocation, its shortfall, the earliest expiry met and the edited copies of the rows |
| InventoryEngine.Allocate | batch-inventory-service/internal/inventory/reservations.go:53-86 | the item loop yields the plan for all items or out of stock |
| InventoryEngine.InventoryService.WriteHolds | batch-inventory-service/internal/inventory/reservations.go:99-109 | saving the edited copies equals editing the stored rows one by one, as no batch repeats |
| InventoryEngine.InventoryService.Reserve | batch-inventory-service/internal/inventory/reservations.go:12-117 | the call in place equals its transaction on values, rollback and replay included |
| InventoryEngine.InventoryService.SettleAll | batch-inventory-service/internal/inventory/reservations.go:180-211 | the settlement loop in place equals the settlement on values |
| InventoryEngine.InventoryService.Transition | batch-inventory-service/internal/inventory/reservations.go:118-222 | confirm and release in place equal their transactions on values |
| InventoryEngine.InventoryService.Return | batch-inventory-service/internal/inventory/reservations.go:228-305 | return in place equals its transaction on values |
| InventoryEngine.InventoryService.Waste | batch-inventory-service/internal/inventory/waste.go:12-73 | waste in place equals its transaction on values, with both keys |
| InventoryEngine.InventoryService.CreateBatch | batch-inventory-service/internal/inventory/batches.go:15-86 | production in place equals its transaction on values; a keyed retry never reaches the catalog check |
| InventoryEngine.InventoryService.ExpireBatch | batch-inventory-service/internal/inventory/reservations.go:375-410 | batch expiry in place equals its transaction on values |
| InventoryEngine.InventoryService.ClaimKeys | batch-inventory-service/internal/inventory/store.go:93-124 | the claim loop returns the earlier answer, a conflict, or nothing, and exactly the new keys |
| InventoryEngine.InventoryService.BindKeys | batch-inventory-service/internal/inventory/store.go:144-152 | every claimed key gets the response, no committed record is replaced |
| InventoryEngine.InventoryService.Sweep | batch-inventory-service/internal/inventory/reservations.go:309-373 | no transaction of the sweep fails, the invariant is kept, and if the limit cut neither query short every batch expired at its start holds nothing |
| Idempotency.ServeAgain | batch-inventory-service/internal/inventory/store.go:105-133 | on a committed key the same request gets the original response and binds its new aliases, unless another of its keys answers something else; otherwise conflict and no change |
| Locks.LockFlavors | batch-inventory-service/internal/inventory/store.go:38-52 | locks each distinct flavor once, strictly ascending |
| Locks.SortKeysSorted | batch-inventory-service/internal/inventory/store.go:79-85 | idempotency keys are claimed in strictly ascending order |
| Locks.CallsAreDisciplined | batch-inventory-service/internal/inventory/store.go:30-52 | every call asks for sorted keys, then at most one order, ascending flavors, at most one code, and touches rows only under their flavor lock |
| Locks.RowsNeverBlock | batch-inventory-service/internal/inventory/reservations.go:139-153 | no transaction ever waits for a reservation or batch row |
| Locks.ServiceNeverDeadlocks | batch-inventory-service/internal/inventory/store.go:30-32 | over every run of the inventory, however its calls and expiry notices begin, take locks and finish, the waits-for relation is acyclic |
| Locks.ServiceProgresses | batch-inventory-service/internal/service/inventory_service.go:226-259 | while such transactions are open, one of them has all its locks or can take its next |
| OrderRows.OrderRepository.Claim | order-service/internal/repository/order_repository.go:96-123 | succeeds exactly from PENDING_PAYMENT, the intent or its end; only a pending order moves, and only to the intent; the URL is gone, reason, terms, other rows and outbox stay; rows and outbox stay tidy |
| OrderRows.OrderRepository.Expire | order-service/internal/repository/order_repository.go:179-199 | succeeds exactly for an unpaid order whose hold passed, leaving an unpaid cancellation intent with its reason and no URL; nothing else changes and the table stays tidy |
| OrderRows.OrderRepository.ClaimForStore | order-service/internal/repository/order_repository.go:201-222 | succeeds exactly for orders that were paid, keeps the paid time, and leaves a store cancellation that is finished only if it was; nothing else changes and the table stays tidy |
| OrderRows.OrderRepository.Reject | order-service/internal/repository/order_repository.go:140-158 | succeeds exactly from a payment claim or a cancellation, which it leaves cancelled or being cancelled; the table stays tidy |
| OrderRows.OrderRepository.MarkPaid | order-service/internal/repository/order_repository.go:224-243 | a claimed order becomes PAID together with its event, a paid one stays as it is, so paid orders and order.placed events correspond one to one |
| OrderRows.OrderRepository.Cancel | order-service/internal/repository/order_repository.go:245-263 | either intent becomes CANCELLED together with its event, keeping reason and paid time, so cancelled orders and order.cancelled events correspond one to one |
| OrderRows.OrderRepository.Bind | order-service/internal/repository/order_repository.go:39-61 | succeeds exactly for a live unpaid order that is unbound or bound to the same checkout; a bound session and URL never change, no status does |
| SagaSteps.ActKeeps | order-service/internal/service/order_service.go:337-527 | every act of every execution, stale or late, keeps the saga invariant |
| SagaTheorems.SagaAgreement | order-service/internal/service/order_service.go:370-527 | in every reachable state PAID implies CONFIRMED, STORE_CANCEL_PENDING implies CONFIRMED or RETURNED, CANCELLED by the store implies RETURNED, any other CANCELLED implies RELEASED or EXPIRED, and a URL is shown only while payment is pending |
| SagaTheorems.SoldStockIsOwned | order-service/internal/service/order_service.go:370-401 | confirmed stock always belongs to an order that is paid, being paid, or being cancelled by the store |
| SagaTheorems.RefusalIsStable | order-service/internal/service/order_service.go:370-383 | once a confirm is refused with FAILED_PRECONDITION, no later or in-flight confirm of that order succeeds and it is never PAID |
| SagaTheorems.RefundsAreSound | order-service/internal/service/order_service.go:354-383 | an order answered with PAYMENT_REJECTED has no order.placed event before or after, in the whole run |
| SagaTheorems.RefundIsDecidedExactly | order-service/internal/service/order_service.go:354-368 | in every reachable state the decision is PAYMENT_REJECTED exactly for an order being or having been cancelled unpaid |
| SagaTheorems.LatePaymentIsRefunded | order-service/internal/service/order_service.go:337-368 | an undisturbed payment callback for such an order is told to refund |
| SagaTheorems.RefusedPaymentIsRefunded | order-service/internal/service/order_service.go:374-383 | whoever received a refusal from Inventory gets the payment refunded, whatever happened since |
| SagaTheorems.EventsHappenOnce | order-service/internal/repository/order_repository.go:224-263 | each order has at most one order.placed and one order.cancelled event |
| SagaTheorems.WasPaidExactlyWhenPlaced | order-service/internal/service/order_service.go:504-527 | order.cancelled carries the paid facts exactly when order.placed was written earlier, with the same total, items and paid time |
| SagaTheorems.ReleaseAcceptedIff | order-service/internal/service/order_service.go:426-440 | in CANCEL_PENDING the persisted release is accepted or replayed exactly unless a give-up was committed under the order's release key |
| SagaTheorems.CancellationStaysPossible | order-service/internal/repository/order_repository.go:175-199 | from a cancellation intent on, the order is never paid, its reason never changes, and its reservation never becomes CONFIRMED or RETURNED |
| SagaTheorems.CancellationFinishes | order-service/internal/service/order_service.go:433-460 | one undisturbed attempt finishes a cancellation intent that was not given up, with one event of its persisted reason |
| SagaTheorems.StoreCancellationFinishes | order-service/internal/service/order_service.go:504-527 | Inventory never refuses the return of a store cancellation, and one undisturbed attempt finishes it with what was paid |
| SagaTheorems.PaymentSettles | order-service/internal/service/order_service.go:337-401 | one undisturbed attempt settles a payment: PAID with its order.placed event, or, when the hold is over, a cancellation intent and a refund |
| SagaTheorems.CustomerCancels | order-service/internal/service/order_service.go:403-460 | an undisturbed cancellation of an unpaid order ends CANCELLED with ORDER_CANCELLED |
| SagaTheorems.OverdueIsCancelled | order-service/internal/service/order_service.go:564-573 | the expiry worker, undisturbed, ends an overdue order CANCELLED with RESERVATION_EXPIRED |
| SagaTheorems.StoreCancels | order-service/internal/service/order_service.go:462-527 | the store's undisturbed cancellation of a paid order ends CANCELLED with STORE_CANCELLED and its paid total, items and time |
| SagaTheorems.PlacementSaves | order-service/internal/service/order_service.go:295-334 | an undisturbed placement with a granted hold saves a pending order with that reservation and its expiry |
| WedgeRun.WedgeHappens | order-service/internal/service/order_service.go:307-316 | for every real order the whole system has a run of eight steps, with produced stock and two placements of that order, that ends in a cancellation intent every release of which conflicts |
| SagaWedge.WedgeIsForever | order-service/internal/service/order_service.go:307-316 | after a committed give-up a cancellation intent stays CANCEL_PENDING in every later state |
| Composition.TransitionProjects | batch-inventory-service/internal/inventory/reservations.go:139-222 | under the stock invariant a confirm, release or timeout is decided by the reservation alone |
| Composition.StepIsAct | order-service/internal/service/order_service.go:295-316 | each step of orders over the full inventory is one enabled act of the saga with the same result |
| Composition.SystemRunsAreSagaRuns | order-service/internal/service/order_service.go:169-607 | every run of the composed system, seen without its stock, is a run of the saga |
| Composition.SalesArePaidFor | order-service/internal/service/order_service.go:370-527 | end to end: the portions each batch sold are those of confirmed reservations, each owned by an order paid, being paid or being cancelled by the store, and every order agrees with its reservation |
| Fulfillment.FulfillmentRepository.CreateFromOrderPlaced | fulfillment-service/internal/repository/fulfillment_repo.go:175-271 | creates exactly for a new event of an order without tombstone or ticket: a queued ticket with the event's data and the next number of its fifteen-minute slot; otherwise at most the event is marked |
| Fulfillment.FulfillmentRepository.CancelByOrder | fulfillment-service/internal/repository/fulfillment_repo.go:288-336 | a new event cancels exactly a queued or preparing ticket, or leaves a tombstone exactly when there is none |
| Fulfillment.FulfillmentRepository.UpdateStatus | fulfillment-service/internal/repository/fulfillment_repo.go:363-435 | succeeds exactly for a repeat or for QUEUED to PREPARING, PREPARING to READY, READY to PICKED UP, with its history and event; not found and wrong state otherwise |
| Fulfillment.KitchenFinishes | fulfillment-service/internal/models/fulfillment.go:41-52 | three updates in a row take every queued ticket to its customer, announcing both steps |
| Fulfillment.EveryKitchenValid | fulfillment-service/internal/repository/fulfillment_repo.go:155-336 | under duplicated and reordered events: no ticket with a tombstone, queue numbers of each slot exactly 1 to next - 1, each history a connected legal path to the current status, ready and picked-up events sent exactly once |
| Fulfillment.CancellationIsFinal | fulfillment-service/internal/repository/fulfillment_repo.go:285-336 | after a committed cancellation the order is never again queued or preparing |
| Catalog.RedisFlavorRepository.Create | catalog-service/internal/repository/redis_flavor_repository.go:29-64 | keeps the catalog consistent; creates only under a free id and a free name, replays only a version that was stored, and otherwise changes nothing |
| Catalog.RedisFlavorRepository.Update | catalog-service/internal/repository/redis_flavor_repository.go:66-96 | keeps the catalog consistent; swaps exactly when the stored document is still the snapshot and no other flavor has the new name, re-indexes it, frees the old name and audits it once; otherwise nothing changes |
| Catalog.RedisFlavorRepository.UpdateIdempotent | catalog-service/internal/repository/mutation_replay.go:142-214 | keeps the catalog consistent; swaps under the same condition if its key is new and remembers the reply with the change, a no-op without an audit; a key with a reply gets that stored version or a conflict, and nothing changes |
| Catalog.CreateAnswers | catalog-service/internal/repository/redis_flavor_repository.go:29-64 | which answer a creation gets when, in terms of stored flavors and replies, and all it writes |
| Catalog.UpdateAnswers | catalog-service/internal/repository/redis_flavor_repository.go:66-96 | which answer an update gets when |
| Catalog.KeyedAnswers | catalog-service/internal/repository/mutation_replay.go:20-60 | which answer a keyed update gets when; a matching reply is always returned, whatever the action |
| Catalog.EveryCatalogConsistent | catalog-service/internal/repository/redis_flavor_repository.go:29-96 | under any mix of stale writers the name index is a bijection with the stored flavors, the id set is exact, every audit list is the unbroken chain of versions, and every remembered reply shows a stored version |
| Catalog.KeyedRetryReplays | catalog-service/internal/repository/mutation_replay.go:20-60 | until its reply expires, and whatever happens in between, a keyed retry returns the original reply and changes nothing; another request on the key is refused |
| Catalog.CreateRetryReplays | catalog-service/internal/repository/redis_flavor_repository.go:29-44 | until its reply expires, a keyed creation is answered with the document it created and changes nothing |
| Analytics.AnalyticsService.OrderPlaced | analytics-service/internal/service/analytics_service.go:91-177 | the sale loops equal the sale on values, with truncating division |
| Analytics.AnalyticsService.OrderCancelled | analytics-service/internal/service/analytics_service.go:185-204 | a paid cancellation is applied, an unpaid one only marked |
| Analytics.AnalyticsService.ReversePaidOrder | analytics-service/internal/service/analytics_service.go:206-255 | subtracts the order unless the day lists it as reversed |
| Analytics.AnalyticsService.WasteRecorded | analytics-service/internal/service/analytics_service.go:257-338 | the waste loops equal the waste on values |
| Analytics.FiguresMatchLog | analytics-service/internal/service/analytics_service.go:120-165 | every figure of every day equals applied sales less reversed orders, and losses, per flavor and per reason |
| Analytics.ReversedOnce | analytics-service/internal/repository/analytics_repo.go:84-110 | each order is subtracted from a day once if that day lists it as reversed, and never otherwise |
| Analytics.CancellationCountsOnce | analytics-service/internal/service/analytics_service.go:179-204 | a processed paid cancellation counts exactly once, however often delivered and with markers lost |
| Analytics.FiguresAreTheTruth | analytics-service/internal/service/analytics_service.go:120-255 | over deliveries in any order, any number of times, where equal ids carry equal payloads, sales and losses keep their markers and paid cancellations of one order agree: every figure is the sum over distinct sales less distinct reversed orders plus distinct losses; cancellations may lose markers |
| Analytics.DeliveryOrderDoesNotMatter | analytics-service/internal/service/analytics_service.go:236-246 | permuting or repeating such deliveries changes neither a figure nor the average |
| Analytics.EveryDayBalanced | analytics-service/internal/service/analytics_service.go:120-338 | flavor ids unique, flavor scoops sum to scoops, waste by reason and by flavor both sum to waste, average = gross / orders toward zero, or 0 |
| Analytics.TruncDiv | analytics-service/internal/service/analytics_service.go:126-128 | the quotient toward zero |
| Analytics.SaleRefreshesNames | analytics-service/internal/service/analytics_service.go:140-160 | a sale shows the last name it gives a flavor |
| Analytics.ReversalKeepsNames | analytics-service/internal/service/analytics_service.go:228-246 | a reversal never renames a listed flavor |
| Analytics.SaleCountsUntilMarked | analytics-service/internal/service/analytics_service.go:167-174 | over any run a sale counts as often as it is delivered up to and including the first delivery whose marker was kept |
| Analytics.SaleCountsOnceIff | analytics-service/internal/service/analytics_service.go:167-174 | so it counts once exactly when its first delivery kept its marker or it is never delivered again |
| Analytics.LostMarkerCountsTwice | analytics-service/internal/service/analytics_service.go:167-174 | a sale with a lost marker, delivered twice, counts twice |
| Notification.RingBuffer.Add | notification-service/internal/stream/replay_buffer.go:47-55 | the buffer is the last cap accepted items, oldest first |
| Notification.RingBuffer.At | notification-service/internal/stream/replay_buffer.go:58-60 | the i-th oldest item |
| Notification.RingBuffer.Contains | notification-service/internal/stream/replay_buffer.go:63-70 | whether the id is buffered |
| Notification.RingBuffer.ValidItems | notification-service/internal/stream/replay_buffer.go:73-83 | the unexpired items in chronological order |
| Notification.FindAfter | notification-service/internal/stream/replay_buffer.go:218-231 | what follows the last event id, or everything |
| Notification.CutAt | notification-service/internal/stream/replay_buffer.go:222-229 | if the id is buffered, exactly what came after its first occurrence |
| Notification.ReplayOrderIff | notification-service/internal/stream/replay_buffer.go:193-208 | the merge is in dispatch order exactly when no broadcast ties with a later personal notification |
| Replay.ReadOutIsExact | notification-service/internal/stream/replay_buffer.go:195-216 | what is read out is what the two rings retain unexpired, each once, in publication order exactly when no retained broadcast ties with a later retained personal notification |
| HandOff.OfferSucceeds | notification-service/internal/hub/hub.go:125-138 | a notification is queued whenever there is room, only a full channel makes the publisher take out the oldest, and then the second attempt finds room, even when the handler receives in between |
| HandOff.NothingTwice | notification-service/internal/handler/stream_handler.go:45-107 | under every interleaving no notification is written twice |
| HandOff.ReplayedOrOffered | notification-service/internal/handler/stream_handler.go:75-85 | at the replay read the last unexpired notifications of each ring are written; what was offered since subscribing is queued or was given up |
| HandOff.HandOffIsComplete | notification-service/internal/handler/stream_handler.go:45-107 | at rest exactly the replayed and the offered notifications are written, save those a full channel gave up |
| HandOff.WrittenInOrderIff | notification-service/internal/handler/stream_handler.go:45-107 | if nothing published between subscribing and reading was evicted, everything is written in publish order exactly when no replayed broadcast ties with a later replayed personal notification |
| AuthOutbox.OutboxTable.Claim | auth-service/internal/outbox/worker.go:38-49 | leases exactly when some unpublished row is due: the first by next attempt, creation and id, for the timeout and ten seconds, raising its attempt; no other row changes |
| AuthOutbox.OutboxTable.Finish | auth-service/internal/outbox/worker.go:65-76 | the latest attempt of an unpublished row ends published now if confirmed, else due after the retry delay; any other lease is lost and changes nothing |
| AuthOutbox.ConfirmedIsPublished | auth-service/internal/outbox/worker.go:65-70 | finishing an acknowledged latest attempt publishes the row at that time, for good |
| AuthOutbox.PublishedWasConfirmed | auth-service/internal/outbox/worker.go:56-76 | a published row was published by the holder of its latest attempt, at the time recorded, after the broker had confirmed that very attempt |
| AuthOutbox.SupersededChangesNothing | auth-service/internal/outbox/worker.go:32-34 | a superseded worker never changes the row |
| AuthOutbox.PublishedIsFinal | auth-service/internal/outbox/worker.go:42-45 | a published row is never leased again and never changes |
| AuthOutbox.LeasesExclude | auth-service/internal/outbox/worker.go:38-49 | an attempt is taken over only after it ended or its lease ran out |
| AuthOutbox.AttemptsAreUnique | auth-service/internal/outbox/worker.go:38-49 | an attempt number is leased to one worker only |
| AuthOutbox.RetryDelay | auth-service/internal/outbox/worker.go:79-81 | between one second and five minutes for every attempt |

## Left out

- HTTP and gRPC handlers, routing, TLS, configuration, JWT checks and log redaction: plumbing.
- RabbitMQ publishers, consumers and reconnect loops: foreign broker behaviour.
- Low-stock and expiring notifications of Inventory and their flags: they touch no balance; only their locks matter and are covered by the row rule of `Locks`.
- Text handling: UUID and date parsing, batch code normalisation, Unicode case folding of flavor names (a document carries its folded name).
- ARCHIVED batches: no code writes that status, so run results start from tables without it.
- Catalog checks, prices and slot capacity in `placeOrder`, and the paging loops of the two order workers: an act may claim or resume any order at any time, which covers them.
- Orders paid before `paid_at` existed: their cancellation falls back to the update time.
- Retention purges and migrations; CleanExpired, which drops rings with nothing left to replay.
- Locks.CallsAreDisciplined: each transaction reads its flavors and rows from one state; a transition that names another order's reservation, committed between its two reads, is refused right after locking that row and asks for nothing more.
- Audit entries keep the whole documents before and after; the stored entry keeps selected fields.
- Float amounts, currency strings and waste rates of Analytics; its summary building.
- The owner map and the bounded seen-set of Notification; Payment, Stripe, email, bcrypt, demo and load programs.
- InventoryEngine.InventoryService.Sweep: runs without other calls between its transactions; `InventorySweep.SweepCompletes` covers interleaving.
