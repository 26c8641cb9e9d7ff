# FulfillHub order saga: a verified model

FulfillHub takes orders over an API and fulfils them with seven queue workers (reserve stock, authorize
payment, create shipment, finalize, cancel, compensate, notify). Workers talk through a transactional
outbox, a leased relay, a topic broker with retry and dead-letter queues, and an inbox that filters
duplicates. This project models that machinery in Dafny and proves what holds over every run of it.

`dafny verify dfyconfig.toml` checks the whole project.

## How the model is built

- **Orders and statuses** (`OrderModel`): orders, events and the relation that guards every status write.
- **Stock** (`Stock`, `StockLaws`): warehouse rows and reservation rows, reserving with the best-row pick,
  and releasing with its clamp at zero.
- **The two stores.** `OrderStore` is the store as a value: every store method is one all-or-nothing
  function. `MemoryStore.Memory` and `PostgresStore.Postgres` are classes with the fields, tables, loops
  and update order of the source; each method is proved equal to the value function on the class's view.
  `StoreAgreement` compares the two stores over whole call sequences, `StorePlay` plays objects of both
  classes with the same calls and with the calls of a saga run, and `SagaStores` compares the same saga run
  on either store.
- **The saga** (`Fulfillment`, `Saga` and the other modules named after it): each handler is cut at its store
  and provider calls, and a run is any sequence of API calls, handler starts, handler steps and aborts.
  An action that is not enabled changes nothing, so a statement about all action sequences is a statement
  about all interleavings, redeliveries and failures. Handlers are step functions rather than methods
  because other workers act between two of their steps. `SagaAnswers` reads off a run what the payment
  provider, the carrier and the stock were asked and answered, `SagaAudit` what was logged, and `SagaWitness`
  builds runs.
- **Delivery** (`Topology`, `Delivery`, `DeliveryLaws`, `DeliveryBounds`, `DeliveryAttempts`, `Consumer`,
  `Metadata`, `Dlq`, `EventText`): the broker, the workers and the inbox as a second transition system; one consumer's code is proved to be
  a run of it.
- **The whole** (`System`, `SystemBounds`): both transition systems in lock step, with the relay between
  them.
- **Outbox and relay** (`Outbox`, `Relay`), **order creation** (`OrderService`, `Amounts`), **webhooks**
  (`Webhook`) and the **rate limiter** (`RateLimit`).

Conventions. A message ID is the event's place in the outbox, which makes it fresh. Order IDs handed to
the store are fresh and not empty, and correlation IDs are not empty (the API supplies the request ID
when the caller sends none). Each queue has one consumer name. A store call, a lock-protected section and
a database transaction are each one step. Clocks, providers, the broker's answers, the digest and every
infrastructure failure are inputs, quantified over. Each store class has one invariant, `Valid()`, which
its constructor establishes and every method keeps. The relational store is given orders of the calling
merchant that have no shipment yet, as the service builds them.

## What turned out not to hold

- An order does not always reach an end. When the carrier refuses a shipment and nobody asked to cancel,
  compensation leaves the order in `cancellation_pending` (`SagaWitness.OrderCanStayPending`). When the total
  of an order is negative, the `payment_authorizations` table refuses the payment, and the order stays
  `inventory_reserved` and keeps its stock (`SagaWitness.OrderCanStayReserved`); validation lets such an order
  through if its sum overflows (`OrderService.DearestLineIsAccepted`,
  `SagaWitness.OverflowingCommandIsBlocked`). `SagaTheorems.Quiescence` and
  `System.DrainedSystemIsQuiescent` state the exact condition.
- The stores do not answer alike when a call asks for what the tables cannot hold: a quantity beyond 32 bits,
  stock that is not there, or a negative authorized amount
  (`StoreAgreement.RelationalRefusesExactlyWhen`).
- After a failed booking on a live shipment the stores disagree about that shipment until the next one
  (`StoreAgreement.LiveShipmentsAgreeExactlyWhen`, `StoreAgreement.ErasingCallsDiffer`); no run of the saga
  does that (`SagaStores.SagaNeverErases`).
- Keys scoped by `merchant + ":" + value` collide exactly when one merchant ID is another one followed by
  a colon and more, and then all keys of the longer one do (`StoreAgreement.KeysCollideExactlyWhen`).
- A message is blocked for a consumer for good exactly when one of its workers once failed to give back the
  inbox entry (`DeliveryLaws.StrandedExactlyWhen`); replaying its dead letter then loses it
  (`DeliveryLaws.BlockedMessageIsLost`). A message can also be lost when the connection breaks during its
  handler (`DeliveryLaws.RedeliveredMessageIsLost`). Otherwise none is lost
  (`DeliveryLaws.NoDeliveryIsLost`).
- Replay keys `provider + NUL + event` confuse two events exactly when one provider's name goes on with a NUL
  after the other's (`Webhook.KeysCollideExactlyWhen`).
- A webhook is accepted at most once exactly when the replay memory is longer than twice the tolerance
  (`Webhook.AcceptedOnceExactlyWhen`); the defaults satisfy this.
- The order total is exact exactly when it fits in 64 bits (`OrderService.TotalIsExactWhen`), and the retry
  counter survives the wire exactly within 32 bits (`Metadata.AttemptSurvivesExactlyWhen`).
- For repeated SKUs stock alone does not decide a reservation
  (`StockLaws.RepeatedSkuBreaksExactness`): equal quantities are reserved once, different ones are refused
  (`StockLaws.ReservationIsExact`). Validation (`OrderService.AcceptedCommandIsNew`) and the uniqueness of
  order and SKU in `order_items` keep such orders out of the loop.

## Model

| member | source | states |
|---|---|---|
| `OrderModel.LifeCycleIsBounded` | internal/commerce/state_machine.go:28-62 | Any history of accepted, real status changes has at most five changes, never returns to a status it left and never leaves a terminal one |
| `Stock.BestRow` | internal/postgres/store.go:1134-1161 | The pick is a row of an active warehouse of the merchant that has the whole line, no other such row is fuller, and of equally full ones it is the first; it is missing exactly if there is no such row |
| `Stock.ReserveFirstKeepsBooks` | internal/postgres/store.go:1114-1162 | Reserving any number of lines keeps the books balanced and available + reserved unchanged on every row |
| `Stock.ReleaseKeepsBooks` | internal/postgres/store.go:1164-1180 | Releasing keeps the books balanced and the totals unchanged, and the clamp at zero never binds |
| `Stock.StockIsConserved` | internal/postgres/store.go:243-270 | Over any sequence of reservations and releases from unreserved tables, available + reserved never changes on any row, neither is negative, and reserved is the sum of the held reservation rows there |
| `StockLaws.ReservationIsExact` | internal/postgres/store.go:236-302 | For positive quantities and an order that holds nothing, a reservation succeeds iff every line fits one active warehouse of the merchant beforehand and lines with the same SKU ask for the same quantity; then each line comes whole from the row ranked best beforehand and no other row changes; otherwise the first line that cannot be served is refused, as a quantity mismatch if it repeats a SKU and as insufficient stock if not |
| `StockLaws.DistinctLinesNeedStockOnly` | internal/commerce/service.go:256-275 | For pairwise distinct SKUs stock alone decides, and the only refusal is insufficient stock |
| `StockLaws.RepeatedSkuBreaksExactness` | internal/postgres/store.go:1114-1133 | A concrete order with a repeated SKU and different quantities whose lines all fit beforehand and which is refused |
| `StockLaws.ReleaseUndoesReserve` | internal/postgres/store.go:771-793 | Releasing right after a successful reservation restores every stock row and holds nothing; releasing once more changes nothing |
| `Topology.RoutingIsTheBindingTable` | internal/messaging/topology.go:48-99 | The fan-out of an event type is exactly the queues whose declared routing keys contain it |
| `Fulfillment.WrongEventsAreRefused` | internal/fulfillment/handlers.go:392-416 | Each of the seven handlers refuses every event that its queue is not bound to or that lacks a correlation ID, an order or a merchant, and then touches nothing |
| `SagaTheorems.ResourcesFollowStatus` | internal/fulfillment/handlers.go:108-374 | In every reachable state all lines of an order share one reservation status; cancelled or failed holds no stock, authorization or live shipment; shipment_created, completed or manual_review holds all three, in the order and, SKU by SKU in the ordered quantity, in the stock tables |
| `SagaTheorems.TerminalAndTermsAreFinal` | internal/commerce/store.go:104-336 | From any reachable state on, no run leaves a terminal status or changes an order's lines, prices or totals |
| `SagaTheorems.CancellationExcludesFulfilment` | internal/fulfillment/handlers.go:302-374 | Once a cancellation was accepted, in every later state the order is cancellation_pending, or manual_review with a live shipment, or cancelled without one, and whether it has a live shipment is frozen |
| `SagaTheorems.CancellationIsNeverRefused` | internal/fulfillment/handlers.go:329-367 | In no run does the cancel handler refuse an accepted cancellation, although its read and write can be split by other steps |
| `SagaTheorems.Quiescence` | internal/fulfillment/handlers.go:155-229 | When every event was handled or refused by each of its queues, an order is terminal if and only if neither exception holds: its shipment was refused and nobody asked to cancel (then it is compensated and cancellation_pending), or its stock is reserved, the relational store cannot record a payment of its negative total, and nobody asked to cancel (then it stays inventory_reserved) |
| `SagaWitness.StatusTableIsExact` | internal/commerce/state_machine.go:28-62 | For every new order that is in stock and can be paid, on either store, some run changes its status from one to another if and only if the table allows that change |
| `SagaWitness.EveryEndIsReachable` | internal/fulfillment/handlers.go:108-367 | Every such order can end completed, failed, cancelled and in manual review, each by a run that leaves nothing unhandled |
| `SagaAnswers.AnswersDecide` | internal/fulfillment/handlers.go:168-277 | In every run the inventory service, the payment provider and the carrier decide: inventory.reserved exists only if the inventory service did not refuse and no line was short, and inventory.rejected only if it did or one was; payment.authorized only if the provider approved and payment.failed only if it refused; shipment.created only if the carrier accepted and shipment.failed only if it refused; each time by the answer the run itself records for the attempt that succeeded |
| `SagaAnswers.RecordsAreAnswers` | internal/fulfillment/handlers.go:198-300 | In every later state the payment carries the provider and authorization ID of that approval, and the shipment is the one the carrier booked |
| `SagaAudit.AuditLogIsComplete` | internal/fulfillment/handlers.go:108-144 | In every run the audit log holds one row for every event in the outbox, for every notification queued and for every compensation done, with its order and action, and no other row |
| `SagaAudit.CancellationIsGrantedExactlyWhen` | internal/commerce/service.go:148-198 | After any run a cancellation request is granted iff the order exists and has not ended, and otherwise reported as missing or as an invalid transition; the reply is the order as stored, which differs from before in its status only; a refusal changes nothing |
| `SagaAudit.LateCancellationIsIdle` | internal/fulfillment/handlers.go:329-340 | In every run, a cancel handler that starts after its order has ended succeeds and changes nothing |
| `SagaWitness.OrderCanStayPending` | internal/fulfillment/handlers.go:241-277 | For every new order that is in stock and can be paid there is a run that handles everything and leaves it cancellation_pending, on either store |
| `SagaWitness.OrderCanStayReserved` | internal/postgres/store.go:385-399 | For every new order with a negative total that the tables accept and have in stock there is a run that handles or refuses everything and leaves it inventory_reserved |
| `SagaWitness.OverflowingCommandIsBlocked` | internal/postgres/migrations/003_fulfillment_projections.sql:26 | Every accepted command whose sum overflows into the upper half of 64 bits, whose quantities fit the table and whose lines are in stock can end like that |
| `SagaHistory.CausationIsAForest` | internal/fulfillment/handlers.go:418-432 | Every outbox event traces back to an order.created or order.cancel_requested event of the same order, merchant and correlation; no two events share a cause; per order no stage is emitted twice |
| `SagaAccounts.OutboxIsWorthAtMost` | internal/fulfillment/handlers.go:168-367 | Whatever failure events (f) and other events (a) cost, the outbox is worth at most max(3a + f, 5a) per order and 2a per accepted cancellation |
| `SagaAccounts.OutboxIsBounded` | internal/fulfillment/handlers.go:168-367 | The outbox never exceeds five events per order and two per accepted cancellation |
| `SagaAccounts.IndexesStayInStep` | internal/commerce/store.go:57-78 | In every reachable store the external-ID index and the idempotency index are bijections with the orders, every order has exactly one order.created event, and every such event names a stored order |
| `SagaAccounts.RepeatedKeyIsIdle` | internal/commerce/store.go:57-68 | A repeated idempotency key returns, in every later state, the order it first named and changes nothing at all |
| `SagaAccounts.CreationIsAnswered` | internal/commerce/service.go:99-130 | After any run a creation request with a fresh order ID is answered with the order its known idempotency key named, as a replay; or as a duplicate iff a stored order has its external ID; or refused iff the tables cannot hold its lines; or is stored and answered as new; only the last changes the store |
| `SagaAccounts.TakenInTables` | internal/postgres/migrations/001_init.sql:32 | In the relational store an external ID is taken iff an order of the same merchant has it |
| `SagaAccounts.MoneyIsTheTotal` | internal/fulfillment/handlers.go:198-229 | Every order.created and payment.authorized event, and every pending question to the payment provider, names the order's total; whether the provider approved is stated by `SagaAnswers.AnswersDecide` |
| `SagaAccounts.SagaConservesStock` | internal/postgres/store.go:219-302 | Over every run of the saga the stock tables stay balanced and conserve available + reserved on every row |
| `Delivery.ExactlyOnceEffect` | internal/messaging/consumer.go:77-101 | With any workers, redeliveries, retries and replays, per consumer and message at most one handler runs at a time, at most one ever succeeds, and none runs after that |
| `DeliveryLaws.NoDeliveryIsLost` | internal/messaging/consumer.go:65-101 | In every run, a published message and a queue bound to it have succeeded or have a copy in the main, retry or dead-letter queue or in process, unless a worker of that consumer failed to give back that message's inbox entry or lost its connection during it; other messages may do anything |
| `DeliveryLaws.SettledOnce` | internal/messaging/consumer.go:199-211 | A settled delivery is never settled again or changed by any later move |
| `DeliveryLaws.StrandedExactlyWhen` | internal/messaging/consumer.go:86-91 | In every run, with connection losses allowed, an inbox entry has neither a success nor a running handler behind it if and only if a worker of that consumer once failed to give it back |
| `DeliveryLaws.StrandedForGood` | internal/messaging/consumer.go:81-84 | Such an entry stays so in every later run |
| `DeliveryLaws.FailedReleaseStrands` | internal/messaging/consumer.go:213-222 | A failing inbox release creates such an entry |
| `DeliveryLaws.BlockedMessageIsLost` | internal/messaging/consumer.go:77-91 | For every message of a key with one queue there is a run without connection loss, with a failed release and a replay of the dead letter, after which the message is published and no copy or success is left |
| `DeliveryLaws.RedeliveredMessageIsLost` | internal/messaging/consumer.go:199-211 | For every such message there is a run with a connection loss and no failed release after which no copy or success is left |
| `DeliveryBounds.HopsAreFinite` | internal/messaging/consumer.go:86-99 | Every effective move of the broker and the workers lowers a measure over the copies in flight, for one message or for all, and moves of other messages leave it alone |
| `DeliveryBounds.RunsComeToRest` | internal/messaging/rabbitmq.go:186-211 | The number of effective moves without new publications or replays is at most that measure |
| `DeliveryBounds.DeliveriesWithinGrants` | internal/messaging/rabbitmq_consumer.go:81-97 | In every run the deliveries of one message, or of all, plus the price of what is in flight are at most what its publications, replays and redeliveries granted |
| `DeliveryBounds.RetryStormIsBounded` | internal/messaging/consumer.go:121-130 | Among any other traffic and whatever the handlers return, a message whose key has k queues is delivered with M retries at most k(1 + k^2 + ... + k^(2M)) times for each publication or replay of it, and 1 + k^2 + ... + k^(2M) times more for each redelivery by the broker |
| `DeliveryBounds.DefaultRetryStorm` | internal/messaging/topology.go:86-98 | With the default three retries a message published once among any others is delivered at most 4 times, and 170 times if it is a failure event, which two queues share |
| `DeliveryAttempts.AttemptsNeverFall` | internal/messaging/dlq.go:32-57 | Unless the message is published anew, no move takes attempts back, a replay by an operator included |
| `DeliveryAttempts.RetriesStayUsedUp` | internal/messaging/consumer.go:92-99 | Once every copy of a message has used up its retries, no replay, redelivery or failure ever brings it back to a retry queue |
| `DeliveryAttempts.AttemptsCountRetries` | internal/messaging/consumer.go:121-130 | In every run a copy has at most as many attempts behind it as retries were accepted, and never more than the limit |
| `System.DrainedSystemIsQuiescent` | internal/fulfillment/handlers.go:71-106 | In every run of the composed system without infrastructure errors, once all is published and the main queues and workers are empty, an order is terminal if and only if neither exception of `Quiescence` holds of it |
| `SystemBounds.SagaRunOf` | internal/fulfillment/handlers.go:71-106 | The saga half of every composed run is a run of the saga |
| `SystemBounds.DeliveriesPerOrder` | internal/messaging/topology.go:48-99 | If each event is relayed once and no dead letter is replayed, a composed run with M retries makes at most max(3a + f, 5a) deliveries per order and 2a per accepted cancellation, with a = M + 1 and f = 2(1 + 4 + ... + 4^M) |
| `SystemBounds.DefaultDeliveriesPerOrder` | internal/messaging/topology.go:48-99 | With three retries that is 182 per order and 8 per accepted cancellation |
| `StoreAgreement.RelationalRefusesExactlyWhen` | internal/postgres/migrations/001_init.sql:38-47 | In agreeing stores the replies to a call differ iff the call asks for what the tables cannot hold: rows the item table refuses (32-bit quantity among them), stock that is not there, or a negative authorized amount |
| `StoreAgreement.StoresAnswerAlike` | internal/postgres/store.go:63-142 | For every call sequence that the tables can hold, both stores give the same replies and agree on orders, statuses, reservation and payment statuses, indexes, events and audit rows |
| `StoreAgreement.RefusalChangesNothing` | internal/postgres/store.go:164-217 | A refused call changes nothing, in either store |
| `StoreAgreement.RepliesSayWhy` | internal/commerce/store.go:104-336 | One rule gives the reply of every call on a stored order, in either store: missing order, then forbidden status change, then what the tables cannot hold with its own error; nothing else is refused |
| `StoreAgreement.LiveShipmentsAgreeExactlyWhen` | internal/postgres/store.go:551-588 | After any such calls the stores agree on whether an order has a live shipment iff no booking of it failed on a live shipment since it was last shipped |
| `StoreAgreement.ErasingCallsDiffer` | internal/commerce/store.go:254-270 | A concrete call sequence after which the table has a live shipment and memory does not |
| `StoreAgreement.ProvidersAgreeExactlyWhen` | internal/postgres/store.go:350-431 | Both stores record an authorization with the provider it names, or else with the one the order already had; they record different providers iff neither is known |
| `SagaStores.RunIsCalls` | internal/fulfillment/handlers.go:168-374 | The store of every saga run is what the run's store calls make of the first store |
| `SagaStores.SagaNeverErases` | internal/fulfillment/handlers.go:241-277 | In no saga run does a booking fail on a live shipment |
| `SagaStores.SagasAgree` | internal/commerce/store.go:57-336 | The same run on the in-memory store and on the relational one, as long as no action asks for what the tables cannot hold: all handlers decide alike, and the stores agree throughout, on live shipments too |
| `StorePlay.PlayMemory` | internal/commerce/store.go:57-336 | Playing any calls on a Memory object gives the replies and the view that the store value gives |
| `StorePlay.PlayPostgres` | internal/postgres/store.go:63-814 | Playing any calls of the service on a Postgres object gives the replies and the view that the store value gives |
| `StorePlay.PlayBoth` | internal/postgres/store.go:63-814 | A new object of each class, played with the same calls that the tables can hold, gives the same replies, and the objects agree, on live shipments exactly where no booking failed on a live one |
| `StorePlay.RunMemory` | internal/commerce/store.go:57-336 | The calls of a saga run leave a Memory object with the store of that run, so the saga invariant is true of it |
| `StorePlay.RunPostgres` | internal/postgres/store.go:63-814 | The same of a Postgres object |
| `StoreAgreement.KeysCollideExactlyWhen` | internal/commerce/store.go:461-463 | Keys of two merchants can collide iff one ID is the other followed by a colon and more; then every key of the longer one, whatever its text, is also a key of the shorter one |
| `StoreAgreement.PlainKeysAreDistinct` | internal/commerce/store.go:461-463 | For merchant IDs without a colon a scoped key determines merchant and value |
| `MemoryStore.Memory.InsertOrder` | internal/commerce/store.go:57-78 | The new state and reply are those of the store value: idempotent reply, duplicate external ID, or one new order, two index entries, one event and one audit row |
| `MemoryStore.Memory.UpdateOrderStatus` | internal/commerce/store.go:104-122 | Guarded status write with its event and audit row, as the store value says |
| `MemoryStore.Memory.RecordInventoryReserved` | internal/commerce/store.go:124-153 | Marks every line reserved, as the store value says |
| `MemoryStore.Memory.RecordInventoryRejected` | internal/commerce/store.go:155-171 | Marks every line rejected without touching the status |
| `MemoryStore.Memory.RecordPaymentAuthorized` | internal/commerce/store.go:173-202 | Stores the payment with the adopted provider and emits the order total |
| `MemoryStore.Memory.RecordPaymentFailed` | internal/commerce/store.go:204-225 | Replaces the payment by a failed one |
| `MemoryStore.Memory.RecordShipmentCreated` | internal/commerce/store.go:227-252 | Guarded write of the shipment |
| `MemoryStore.Memory.RecordShipmentFailed` | internal/commerce/store.go:254-270 | Replaces the shipment by a failed one |
| `MemoryStore.Memory.RecordOrderCancelled` | internal/commerce/store.go:272-297 | Guarded cancellation that releases reserved lines and voids an authorized payment |
| `MemoryStore.Memory.RecordNotificationQueued` | internal/commerce/store.go:299-308 | Adds an audit row only, or reports a missing order |
| `MemoryStore.Memory.RecordCompensation` | internal/commerce/store.go:310-336 | Guarded compensation: releases lines and voids the payment as the failed event demands, and emits nothing |
| `MemoryStore.Memory.PendingOutboxEvents` | internal/commerce/store.go:360-387 | The scan returns the first due events in outbox order, as many as a positive limit allows and all of them otherwise, leases exactly those for 30 seconds, and agrees with the claimed batch of `Outbox`, also for an outbox in which message IDs repeat |
| `MemoryStore.Memory.MarkOutboxPublished` | internal/commerce/store.go:436-443 | Marks one event published at the given time, drops its lease, and changes nothing else |
| `PostgresStore.SelectReservation` | internal/postgres/store.go:1114-1133 | The loop finds the reservation row of one order and SKU |
| `PostgresStore.SelectCandidate` | internal/postgres/store.go:1134-1161 | The scan over the rows finds the best one |
| `PostgresStore.ReserveLine` | internal/postgres/store.go:1114-1162 | One line: already held, mismatch, no stock, or taken from the best row |
| `PostgresStore.ReserveLines` | internal/postgres/store.go:243-270 | The loop over the lines, rolled back at the first refusal |
| `PostgresStore.ReleaseRows` | internal/postgres/store.go:1164-1180 | The update gives back exactly what the order holds on each row |
| `PostgresStore.Postgres.InsertOrder` | internal/postgres/store.go:63-142 | On the joined tables the new state and reply are those of the store value, including the violations of uniqueness, of the checks and of the 32-bit quantity |
| `PostgresStore.Postgres.GetOrder` | internal/postgres/store.go:1211-1290 | Reassembles an order from its row, its items and its shipment, or reports it missing |
| `PostgresStore.Postgres.UpdateOrderStatus` | internal/postgres/store.go:164-217 | Guarded status write with its event and audit row, on the tables |
| `PostgresStore.Postgres.RecordInventoryReserved` | internal/postgres/store.go:219-302 | Takes the stock, marks the item rows and moves the status, or changes nothing and reports why |
| `PostgresStore.Postgres.RecordInventoryRejected` | internal/postgres/store.go:304-348 | Marks the item rows rejected without touching the status |
| `PostgresStore.Postgres.RecordPaymentAuthorized` | internal/postgres/store.go:350-431 | Guarded payment write with the adopted provider, emitting the order total, or refused because the payment_authorizations table takes no negative amount |
| `PostgresStore.Postgres.RecordPaymentFailed` | internal/postgres/store.go:433-481 | Marks the payment failed |
| `PostgresStore.Postgres.RecordShipmentCreated` | internal/postgres/store.go:483-549 | Guarded write of the shipment row |
| `PostgresStore.Postgres.RecordShipmentFailed` | internal/postgres/store.go:551-588 | Emits the failure and keeps the shipment row |
| `PostgresStore.Postgres.RecordOrderCancelled` | internal/postgres/store.go:590-647 | Guarded cancellation that returns the stock and voids the payment |
| `PostgresStore.Postgres.RecordNotificationQueued` | internal/postgres/store.go:649-687 | Adds an audit row only, or reports a missing order |
| `PostgresStore.Postgres.RecordCompensation` | internal/postgres/store.go:689-754 | Guarded compensation on the tables, emitting nothing |
| `PostgresStore.Postgres.ReleaseReservedStock` | internal/postgres/store.go:771-793 | Returns the stock to the rows and marks reservations and items released |
| `PostgresStore.Postgres.ApplyCompensationEffects` | internal/postgres/store.go:756-769 | Releases stock for payment and shipment failures, voids the payment for shipment failures |
| `Outbox.BatchIsFirst` | internal/commerce/store.go:360-387 | A batch has at most a positive limit of events, in outbox order, due, each ID once; a due event is left out only if the limit is positive, the batch has reached it and lies wholly before the event |
| `Outbox.ClaimsAreDisjoint` | internal/commerce/store.go:370-383 | Two claims less than 30 seconds apart share no event, whatever happens between |
| `Outbox.LeaseEnds` | internal/commerce/store.go:378-380 | A claimed event that nobody marks is claimable again exactly 30 seconds later |
| `Outbox.PublishedStays` | internal/commerce/store.go:375-377 | A published event is never handed out again |
| `Outbox.HandedOutExactlyWhen` | internal/commerce/store.go:360-387 | After any appends, claims and marks on a new outbox, a claim without a limit hands out exactly the events that were appended, were never marked, and were not handed out during the last 30 seconds |
| `Relay.RunOnce` | internal/messaging/relay.go:30-81 | A pass takes at most a positive limit of events and marks exactly those before the first one that is not accepted or not marked, in batch order; every marked event was accepted; it fails exactly if the batch was not finished |
| `Relay.UnmarkedEventsComeBack` | internal/messaging/relay.go:43-81 | An event a pass did not mark is claimable again exactly 30 seconds after the pass claimed it |
| `Consumer.ProcessDelivery` | internal/messaging/consumer.go:41-130 | The inbox rows and effects of one delivery under every outcome of decoding, inbox, handler, release and retry; a failed and released delivery whose retry the broker takes is retried, with the next attempt number, iff there is a retry publisher and the attempt is below the configured number, or below 3 if none is configured; what is not retried is dead-lettered |
| `Consumer.ProcessingIsARun` | internal/messaging/consumer.go:41-102 | Those effects are, while the connection holds, a run of the delivery protocol that settles the delivery exactly once and changes queues, inbox and logs by exactly its effects |
| `Consumer.MemoryInbox.Record` | internal/messaging/inbox.go:55-65 | Adds the joined key and reports whether it was new |
| `Consumer.MemoryInbox.Release` | internal/messaging/inbox.go:67-73 | Removes the joined key |
| `Consumer.InboxTable.RecordInboxMessage` | internal/postgres/store.go:1042-1067 | Adds the row and reports whether it was new |
| `Consumer.InboxTable.ReleaseInboxMessage` | internal/postgres/store.go:1069-1086 | Removes the row |
| `Consumer.InboxesAnswerAlike` | internal/messaging/inbox.go:55-73 | After any calls the joined keys answer the next call as a table of pairs would, for consumer names without a colon |
| `Metadata.DefaultsAreIdempotent` | internal/commerce/model.go:159-171 | Applying envelope defaults twice is applying them once |
| `Metadata.FirstNonEmpty` | internal/messaging/rabbitmq_consumer.go:115-122 | The result is the first value that is not empty, or empty if all are |
| `Metadata.CloneHeaders` | internal/messaging/rabbitmq_consumer.go:107-113 | The loop copies every header and no other |
| `Metadata.DecodeDelivery` | internal/messaging/consumer.go:160-184 | Body fields completed from transport metadata, refused for a broken body or another schema version |
| `Metadata.BlankFieldsAreFilled` | internal/messaging/consumer.go:160-184 | Each field of a decoded event is the first that is not empty of the body's and the transport's, for the causation of the body's, the header's, and the message IDs; the rest of the body is untouched |
| `Metadata.PublishRetry` | internal/messaging/rabbitmq_consumer.go:74-98 | The retry copy: same body and routing key, every header kept but the attempt and the causation, metadata completed from the event |
| `Metadata.PublishedMetadata` | internal/messaging/rabbitmq.go:61-104 | A published message carries message ID, correlation ID, event type, merchant, order and causation in its metadata, and reads as a first attempt |
| `Metadata.PublishedEventDecodes` | internal/messaging/rabbitmq.go:61-104 | Decoding a published event gives that event with its defaults, or nothing if its schema version is not supported |
| `Metadata.AttemptSurvivesExactlyWhen` | internal/messaging/consumer.go:132-158 | The attempt read back equals the one written iff it fits in 32 bits |
| `Metadata.AttemptsAreCounted` | internal/messaging/consumer.go:132-158 | The attempt read from a message is the number of times it was retried, as far as 32 bits go |
| `Metadata.RetryKeepsTheEvent` | internal/messaging/rabbitmq_consumer.go:81-98 | A retry copy of any decodable message decodes to the same event |
| `Metadata.TravelKeepsTheEvent` | internal/messaging/dlq.go:40-50 | After any sequence of retries, dead-lettering, expiry, re-encoding of headers and replays every message decodes to the same event or the same refusal |
| `Metadata.MetadataStays` | internal/messaging/rabbitmq_consumer.go:81-98 | On the same way a message keeps the message ID, correlation ID and type in its metadata |
| `Metadata.PublishedEventTravels` | internal/messaging/rabbitmq.go:61-104 | From publication to any later delivery consumers see the published event with its defaults |
| `EventText.KeyStays` | internal/messaging/rabbitmq_consumer.go:74-98 | After any retries, expiries and dead-letterings a published message still has its trimmed event type as routing key |
| `EventText.ReplayKeyStays` | internal/messaging/dlq.go:40-50 | After a replay it has the operator's routing key, until the next replay |
| `EventText.CopiesFollowTheKey` | internal/messaging/topology.go:48-99 | The queues whose declared routing keys contain that key are exactly those the delivery protocol copies the message to at every hop |
| `EventText.RootsComeFromTheApi` | internal/commerce/model.go:179-194 | The default producer of the events that start a chain is the API |
| `EventText.ProducerIsTheEmitter` | internal/commerce/model.go:179-194 | The default producer of every other event is the worker that handles its cause |
| `EventText.PayloadSaysWhatHappened` | internal/commerce/model.go:196-237 | An event without a payload is given one that names the status it announces and when a completed or cancelled order ended, or the stage that failed |
| `EventText.EventsAnnounceTheStatus` | internal/fulfillment/handlers.go:168-367 | In every run, when an event is appended its order has exactly the status that payload names |
| `Dlq.ReplayDLQ` | internal/messaging/dlq.go:17-64 | At most the configured number of letters leaves the queue, 100 if none is configured, in order, each republished unchanged but for its routing key; uncounted letters stay queued whatever fails, at most one of them republished as well; without a fault everything up to the limit is replayed |
| `OrderService.ValidateCreateOrder` | internal/commerce/service.go:233-286 | Reports every problem a command has and no other, once and in the order of the checks, among them each repeated trimmed SKU with its first line; reports nothing iff the command is acceptable |
| `Text.TrimIsASlice` | internal/commerce/service.go:233-286 | Trimming cuts out a slice of the text, and everything cut off is white space |
| `Text.BlankExactlyWhen` | internal/commerce/service.go:233-286 | A field counts as missing iff it is all white space |
| `OrderService.Price` | internal/commerce/service.go:62-72 | The loop's wrapped subtotal is the exact sum wrapped once; the items have the lines' SKUs, quantities and prices, in order, and are pending |
| `OrderService.CreateOrder` | internal/commerce/service.go:54-100 | Accepts exactly the acceptable commands and builds an order with the command's external ID, currency and provider and line for line its SKUs, quantities and prices, whose total is the wrapped value of these lines plus 12.00, or returns all problems |
| `OrderService.TotalIsExactWhen` | internal/commerce/service.go:60-87 | The total is the exact sum plus shipping iff that fits in 64 bits; then the subtotal is exact and not negative |
| `OrderService.TotalIsNegativeWhen` | internal/commerce/service.go:60-87 | The total is negative iff the exact sum plus shipping, modulo 2^64, is at least 2^63 |
| `OrderService.DearestLineIsAccepted` | internal/commerce/service.go:233-286 | A command with one line of quantity 1 and price 2^63 - 1 is accepted, and its total is negative |
| `OrderService.AcceptedCommandIsNew` | internal/commerce/service.go:256-275 | An accepted command yields an order with distinct SKUs, positive quantities and pending lines: what the saga and the table constraints take as new |
| `Amounts.ChargedIsTheSum` | internal/commerce/service.go:60-87 | In every later state of every run the order's total and the amounts in its events are the exact sum of the command's lines plus shipping |
| `Amounts.ExactTotalsArePayable` | internal/postgres/store.go:385-399 | An order whose total is the exact sum of an accepted command can always have its payment recorded |
| `Amounts.AskedIsTheTotal` | internal/fulfillment/provider_adapters.go:35-41 | A payment worker that has asked the provider asked for that amount |
| `Amounts.StoredAsOrdered` | internal/commerce/service.go:54-130 | In every later state of every run the stored order has the command's merchant, external ID and currency and line for line its SKUs, quantities and prices, and these are worth the exact sum of the command |
| `Amounts.PaidWithTheProviderNamed` | internal/commerce/service.go:88-100 | In every later state the order's payment is with the provider the command names, as long as it is pending or failed |
| `Webhook.MemoryReplayStore.RecordWebhook` | internal/providers/webhook.go:201-221 | The clean-up loop drops exactly the expired entries; the key made of provider, NUL and event ID is accepted iff it is not live, and is then remembered until it expires |
| `Webhook.Secrets` | internal/providers/webhook.go:136-147 | The secrets used are the trimmed configured ones that are not blank |
| `Webhook.MatchesSignature` | internal/providers/webhook.go:149-159 | A match is found iff some secret's digest is among the signatures |
| `Webhook.Authenticate` | internal/providers/webhook.go:67-109 | The checks pass iff the request is authentic, and otherwise report the first requirement that fails |
| `Webhook.Verify` | internal/providers/webhook.go:67-134 | A request that is not authentic is refused with the first requirement that fails and leaves the store alone; an authentic one is verified, with its trimmed provider and event ID, timestamp, arrival and expiry, or refused as a replay as `VerifiedExactlyWhen` says |
| `Webhook.VerifiedExactlyWhen` | internal/providers/webhook.go:67-134 | On every clock-ordered sequence of calls to any verifiers that share a store, an authentic request is verified iff the memory of every earlier verified request for the same provider and event ID, or one confused with it, has run out |
| `Webhook.KeysCollideExactlyWhen` | internal/providers/webhook.go:215 | Two calls share a replay key iff they name the same provider and event ID or one provider's name goes on with a NUL after the other's and the event IDs make up for it; never with providers without a NUL |
| `Webhook.AcceptedOnceExactlyWhen` | internal/providers/webhook.go:91-125 | A verifier with a provider and a secret verifies each signed event at most once, on every clock-ordered sequence of calls, iff its replay memory is longer than twice its tolerance (or its tolerance is negative) |
| `Webhook.DefaultsAcceptOnce` | internal/providers/webhook.go:21-22 | The default tolerance of five minutes and memory of a day accept once |
| `Webhook.CleaningUpDecidesNothing` | internal/providers/webhook.go:210-214 | Every decision is the one a store that never forgets would make |
| `RateLimit.MemoryLimiter.Allow` | internal/ratelimit/limiter.go:35-48 | One call charges the key's own bucket only and is allowed iff the count is within the limit |
| `RateLimit.IntervalBound` | internal/ratelimit/limiter.go:35-48 | With a non-decreasing clock any interval one window long holds at most 2 * limit - 1 allowed calls of a key, and none for limit zero |
| `RateLimit.IntervalBoundIsReached` | internal/ratelimit/limiter.go:35-48 | For every positive limit there is a trace that reaches this bound |
| `RateLimit.KeysAreIndependent` | internal/ratelimit/limiter.go:39-45 | A key's bucket is what its own calls alone make it |

## Left out

- The HTTP server, authentication, JSON text, metrics, tracing and logging are not part of this model.
- AMQP connections and the wait for confirmations: publishing is an accepted-or-not outcome.
- SQL isolation levels, lock waiting and ambiguous commits: each store method is one atomic step that an error leaves undone.
- A worker process that dies between recording in the inbox and settling its delivery: the model has lost connections whose handler goes on, and failing inbox releases. `DrainedSystemIsQuiescent` is about runs without infrastructure errors.
- HMAC, SHA-256, random IDs and signature header parsing: the digest and the parsed header are parameters, IDs are fresh.
- Timestamps, audit actors and details, and event payloads other than money amounts and envelope defaults.
- The notification and compensation tables, the columns of payment_authorizations other than the amount, uniqueness conflicts of provider-supplied shipment, tracking and authorization IDs, and text that the database cannot store.
- The relational outbox claim (`internal/postgres/store.go:895-941`): it orders by time of occurrence and has a default limit of 100; the in-memory claim is modelled.
- Cancel requests: actor validation, which rejects blank fields before the store is reached. The service's first read is folded into the guarded write, which repeats its test.
- A webhook verifier without a replay store and the error of a missing in-memory store.
- ProcessDelivery: the configuration check for a missing inbox or handler, which settles nothing, and the text of returned errors.
- ReplayDLQ: a letter returned to the queue goes back to its old place; the broker may place it later.
- ValidateCreateOrder: lengths are in characters where the source counts bytes.
- StoresAnswerAlike: payment provider names and the text of shipment records are not compared; ProvidersAgreeExactlyWhen and LiveShipmentsAgreeExactlyWhen treat providers and whether a shipment is live.
- Replaying a dead letter under a routing key other than its own is not part of the delivery protocol; Metadata covers it for a message's content.
- Fake providers, the Redis client, migrations, configuration parsing and read-only queries would only add easy members.
