# Order saga with a transactional outbox — a Dafny model

This project models the core of a microservices shop. An order is
processed by an orchestrated saga:

- The order service creates the order and asks the inventory service to reserve stock.
- On a reservation it asks the payment service to charge the order's total.
- On a payment it confirms the order, and the shipping service schedules a shipment.
- On a payment failure after a reservation it releases the stock (the compensating action) and fails the order.
- On a reservation failure it fails the order.

Each service writes the events it emits into an `outbox` table, in the
same transaction as its own changes. A publisher polls that table and
hands pending rows to RabbitMQ. Consumers retry a failing handler by
republishing the message with a counter in the `x-retry-count` header.
Once the retry budget is spent they reject the message to a dead-letter
exchange.

The model follows the code file by file:

| file | module | form |
|---|---|---|
| `common.dfy` | `Common` | option/result types, money as integer cents, a stable sort |
| `events.dfy` | `Events` | the event-type enumeration, the event classes as one payload datatype, the registry, `deserialize_event` |
| `outbox.dfy` | `Outbox` | the outbox row; the publish pass and the reset as spec functions; `OutboxStore` and `OutboxPublisher` classes whose methods are proved against them |
| `message_broker.dfy` | `MessageBroker` | message construction, the retry/dead-letter decision as functions; the `Broker` class holding the published, dead-lettered and dead-letter-queue sequences |
| `saga_orchestrator.dfy` | `OrderSaga` | each saga step as a function producing a `Transition` (new order, log rows, events); the `SagaOrchestrator` class whose handlers commit those transitions |
| `order_app.dfy` | `OrderService` | the order total, `create_order`, the routing table of saga replies, `get_saga_logs` |
| `inventory.dfy` | `InventoryService` | reserve/release on values; the `Inventory` class with the two per-item loops |
| `payment.dfy` | `PaymentService` | the idempotent payment handler and the refund handler; the `Payments` class with its two commits |
| `shipping.dfy` | `ShippingService` | shipment scheduling, tracking numbers, `get_shipment`; the `Shipping` class |
| `saga_wiring.dfy` | `SagaWiring` | the services' queue bindings, and what they mean for the saga as a whole |

Inputs the code draws from the world become parameters:

- every `uuid4()`;
- the clock (`datetime.utcnow()`, as whole seconds);
- the gateway's `random.random()` draw and `random.choice` pick;
- whether a broker publish succeeds;
- the outcome of a handler called by a consumer.

Each `uuid4()` that becomes an event id or a primary key is required to be
fresh (not already in the table). This stands in for the uniqueness of
random UUIDs.

Each `async with session: … commit()` block is one step over in-memory
tables. A handler class has a method per handler. The method's `ensures`
ties the new tables to a pure function of the old ones: for example
`OrderSaga.SagaOrchestrator.HandlePaymentFailed` commits exactly
`OrderSaga.OnPaymentFailed`. The lemmas are proved about those functions.

Where the repository's design description and its code differ, the model
follows the code:

- A successful saga writes six saga-log rows, not four:
  - `start_order_saga` writes two;
  - each of the two successful replies writes two more.
- The outbox publisher has no backoff and no compare-and-swap claim of its batch.
- A consumer has no fast path for poison messages. A body that is not JSON spends the same retry budget as a failing handler (`MessageBroker.MalformedBodyIsRetried`).
- There is no event upcasting.
- The compensation on a payment failure emits `inventory.released` (the event the inventory service consumes), not a separate release request.
- No step of the orchestrator ever emits `payment.refunded`. The payment service's refund queue is bound, but nothing in the saga publishes to it (`SagaWiring.RefundQueueIsBound` and the five `…RequestsNoRefund` lemmas).
- `order.confirmed` carries no metadata. So the shipping service always stores an empty shipping address (`ShippingService.NoMetadataNoAddress`).
- None of the orchestrator's handlers checks the order's status. A late `payment.failed` turns a confirmed order into a failed one (`OrderSaga.NoStatusGuard`).
- The stock check judges each item against the stock as it was before any update. A request naming the same product twice can drive `available_quantity` below zero (`InventoryService.DuplicateItemsOverdraw`). Non-negativity is proved only for requests with one item per product (`InventoryService.NoOverdraw`).
- `dead_letter_queue` is declared in `connect` but never bound to the `saga_events_dlx` exchange. Rejected messages go to the exchange (`deadLettered` in the model) and reach no queue. Only `MessageBroker.Broker.GetDeadLetterMessages` may change `deadLetterQueue`, and it only removes messages. So in the running system the fetch always returns an empty list.
- A retry is republished to the `saga_events` topic exchange under the original routing key (`MessageBroker.RepublishRouting`). So every queue bound to that key receives it again, not only the queue whose handler failed. The notification service's `*.*` queue is one of these. A failure of its logging handler therefore redelivers, say, `payment.processed` to the orchestrator, which has no status guard (`OrderSaga.NoStatusGuard`).
- The payment handler commits twice: once for the processing transaction, once for the outcome. A redelivery that finds the transaction still processing emits nothing (`PaymentService.ProcessingIsSilent`).

## Model

| member | source | states |
|---|---|---|
| Events.Parse | shared/events.py:237 | `EventType(s)` succeeds only on a string that is the value of some member, and then yields that member |
| Events.ParseValue | shared/events.py:10-39 | parsing an event type's own value gives the event type back |
| Events.ValueInjective | shared/events.py:10-39 | distinct event types have distinct string values |
| Events.ParseAcceptsOnlyValues | shared/events.py:237 | `EventType(s)` accepts `s` if and only if `s` is the value of some event type |
| Events.DefaultEventType | shared/events.py:71-210 | every event class except `BaseEvent` has a default `event_type`; `BaseEvent` has none |
| Events.RegistryAgreesWithDefaults | shared/events.py:213-232 | each registered type maps to a class other than `BaseEvent` whose default `event_type` is that same key |
| Events.UnregisteredTypes | shared/events.py:213-232 | exactly `shipping.failed`, `notification.sent` and `notification.failed` are missing from the registry, and exactly they fall back to `BaseEvent` |
| Events.NewEvent | shared/events.py:51-67 | a new event has version 1, empty metadata, the given ids, time and causation, and the default `event_type` of its payload's class |
| Events.FollowUp | shared/events.py:59-60 | an event emitted in reaction to another keeps its correlation id and names it as the causation |
| Events.Deserialize | shared/events.py:235-239 | a decoded event has the stored type string, event id and correlation id |
| Events.UnknownTypeFails | shared/events.py:237 | a type string outside the enumeration makes decoding fail with that string |
| Events.DecodedIsWellTyped | shared/events.py:238-239 | a successfully decoded event's payload is of the class the registry (or the `BaseEvent` fallback) picks |
| Events.RoundTrip | shared/events.py:235-239 | serializing then decoding returns the event unchanged if and only if its payload is of the class the registry picks for its type |
| Events.ClassEventRoundTrip | shared/events.py:213-239 | an event built from its class's defaults round-trips through its stored form; an unregistered one comes back as a plain `BaseEvent` |
| Outbox.SavedRowDescribesEvent | shared/outbox.py:228-235 | the saved row is pending, carries the event's id, type value and aggregate id, has retry count 0, no error and no publish time, and its data decodes back to the event whenever the event's payload is of its registered class |
| Outbox.NewRows | shared/outbox.py:208-237 | saving a sequence of events yields one row per event, in order |
| Outbox.AppendKeepsUnique | shared/outbox.py:43 | appending a row with a new event id keeps event ids unique across the table |
| Outbox.IdsOfAppend | shared/outbox.py:43 | appending a row adds exactly its event id to the table's ids |
| Outbox.OutboxStore.SaveEventToOutbox | shared/outbox.py:208-237 | appends exactly one row describing the event, changes no existing row, and keeps event ids unique |
| Outbox.Matching | shared/outbox.py:127-129 | the positions found are exactly the rows with the status, in increasing position |
| Outbox.SelectOldest | shared/outbox.py:127-135 | the batch holds only positions of rows with the status, each at most once |
| Outbox.SelectOldestRows | shared/outbox.py:127-135 | the batch holds only rows with the status, each once, `min(limit, number of such rows)` of them; a row with the status is left out only when the batch is full |
| Outbox.SelectOldestSorted | shared/outbox.py:130 | the batch is in ascending `created_at` order |
| Outbox.OldestFirst | shared/outbox.py:130-131 | a row with the status that the batch leaves out is no older than any row in the batch |
| Outbox.NothingToSelect | shared/outbox.py:137-138 | with no row of the status the batch is empty |
| Outbox.AttemptEffect | shared/outbox.py:143-171 | after a successful attempt the row is published with `published_at` set; after a failed one its retry count is one higher, the error text is recorded, and it is failed if and only if the new count reaches `max_retries` |
| Outbox.PassEffect | shared/outbox.py:142-177 | a pass changes each batch row exactly as one attempt does and leaves every row outside the batch unchanged |
| Outbox.PublishedNeverRetried | shared/outbox.py:129-152 | a published row is never in a publish pass's batch and stays identical through the pass |
| Outbox.PassKeepsEventIds | shared/outbox.py:142-177 | a pass changes no event id, so event ids stay unique |
| Outbox.FailTimesStatus | shared/outbox.py:164-171 | after `n >= 1` failed attempts on a fresh row its retry count is `n`, and it is failed if and only if `n >= max_retries` |
| Outbox.DefaultAlwaysFailingRow | shared/outbox.py:68-171 | with the default of 3, a row whose publish always fails stays pending after one and two attempts and is failed with count 3 after the third |
| Outbox.ResetMeaning | shared/outbox.py:187-201 | the reset turns each row of its batch (at most `limit` of the oldest failed rows) into pending with retry count 0 and no error; every other row is unchanged |
| Outbox.ResetKeepsEventIds | shared/outbox.py:197-201 | the reset keeps event ids unique |
| Outbox.OutboxPublisher.Start | shared/outbox.py:88-96 | a start while running changes nothing; otherwise the publisher is running with a polling task |
| Outbox.OutboxPublisher.Stop | shared/outbox.py:98-111 | afterwards the publisher is not running, and a task it had is cancelled |
| Outbox.OutboxPublisher.Attempt | shared/outbox.py:143-149 | one row's `try` block: decoding then publishing, whose outcome is the broker's, publishes the row's event exactly when it succeeds |
| Outbox.OutboxPublisher.PublishPendingMessages | shared/outbox.py:123-177 | one pass leaves the table equal to the spec pass over the oldest `batch_size` pending rows, and the broker received exactly that pass's messages in batch order |
| Outbox.OutboxPublisher.RetryFailedMessages | shared/outbox.py:179-205 | the table becomes the spec reset of the oldest `limit` failed rows |
| MessageBroker.EventMessage | shared/message_broker.py:84-108 | the message is routed by the given key or else the event type's value, carries the event's JSON, is persistent with JSON content type, and has exactly the headers event_type, event_id, correlation_id and version, holding the type's value, the event's id, its correlation id and its version (no retry count) |
| MessageBroker.ReadRetryCount | shared/message_broker.py:183-185 | without the `x-retry-count` header the count is 0; an integer header is read as is |
| MessageBroker.RetryDelayBounds | shared/message_broker.py:204 | every delay before a retry is positive and at most 60 seconds |
| MessageBroker.RetryDelayCapped | shared/message_broker.py:204 | from the sixth retry on the delay is exactly 60 seconds |
| MessageBroker.RetryDelayMonotone | shared/message_broker.py:204 | a later retry never waits less than an earlier one |
| MessageBroker.QueueArguments | shared/message_broker.py:141-149 | a queue is declared with exactly the dead-letter exchange `saga_events_dlx`, the dead-letter routing key `dlq.<binding>` and the quorum type |
| MessageBroker.RetryDecision | shared/message_broker.py:179-217 | a failed delivery with counter `c` is republished if and only if `c + 1 <= max_retries` and the republish succeeds; otherwise it is dead-lettered; the copy keeps body, content type and other headers, with the counter set to `c + 1` and the delay `min(2^(c+1), 60)` |
| MessageBroker.MalformedBodyIsRetried | shared/message_broker.py:159-209 | a body that is not JSON is retried like a failing handler, as attempt 1 after 2 seconds |
| MessageBroker.HandledIsAcked | shared/message_broker.py:159-177 | a decodable event whose handler returns is acknowledged |
| MessageBroker.UnreadableCounter | shared/message_broker.py:166-185 | a counter header that is not a number makes a type subscription dead-letter the message, while a pattern subscription, which reads the counter only on failure, acknowledges a handled one |
| MessageBroker.RepublishRouting | shared/message_broker.py:206-209 | a type subscription republishes on the event type's value; a pattern subscription on the message's own routing key, falling back to the pattern |
| MessageBroker.FailingDelivery | shared/message_broker.py:187-209 | one delivery of an always-failing message with counter `c` below the budget is retried as `c + 1` and the copy's counter reads back as `c + 1` |
| MessageBroker.AlwaysFailingRun | shared/message_broker.py:157-217 | a message whose handler always fails, starting at counter `c`, is delivered `max_retries - c + 1` times: retried with counts `c+1, c+2, …` and their delays, then dead-lettered once |
| MessageBroker.DefaultFailingRun | shared/message_broker.py:126-217 | with the default of 3 retries an always-failing event is handled 4 times, retried after 2, 4 and 8 seconds, and then dead-lettered |
| MessageBroker.FetchDeadLettersMeaning | shared/message_broker.py:312-326 | a fetch returns at most `limit` messages, the oldest ones and in queue order, and removes exactly them from the queue, stopping short of `limit` only when the queue runs out; a body that is not JSON fails the call and stays at the head of the queue |
| MessageBroker.Broker.Connect | shared/message_broker.py:33-65 | afterwards the connection is open and the exchanges are declared |
| MessageBroker.Broker.Disconnect | shared/message_broker.py:67-71 | afterwards the connection is closed; the exchange references stay |
| MessageBroker.Broker.PublishEvent | shared/message_broker.py:73-119 | refuses with "Message broker not connected" before `connect`; otherwise appends the event's message to the exchange exactly when the transport succeeds |
| MessageBroker.Broker.SubscribeToEvent | shared/message_broker.py:121-154 | refuses before `connect`; otherwise adds one queue bound to the event type |
| MessageBroker.Broker.SubscribeToPattern | shared/message_broker.py:221-254 | refuses before `connect`; otherwise adds one queue bound to the pattern |
| MessageBroker.Broker.ProcessMessage | shared/message_broker.py:157-219 | one delivery follows the retry decision, appending the retry copy to the exchange or the rejected message to the dead-letter exchange |
| MessageBroker.Broker.GetDeadLetterMessages | shared/message_broker.py:305-326 | refuses before `connect`; otherwise returns the spec fetch of the dead-letter queue and leaves the rest of the queue |
| MessageBroker.Broker.ReplayEvent | shared/message_broker.py:328-337 | publishes the event afresh, routed by its type and without a retry count |
| MessageBroker.ReplayStartsAtZero | shared/message_broker.py:328-337 | a replayed event's counter reads as 0, so its next failure is retried as attempt 1 |
| OrderSaga.StockItems | services/order_service/saga_orchestrator.py:105-106 | the reserve request lists each order item's product and quantity, in order |
| OrderSaga.Start | services/order_service/saga_orchestrator.py:40-126 | a pending order at the reservation step; `order.placed` then `inventory.reserve.requested` under one correlation id, the second caused by the first; log rows (order_placed, completed) then (inventory_reservation, started) |
| OrderSaga.OnInventoryReserved | services/order_service/saga_orchestrator.py:139-174 | the order becomes inventory_reserved with the reservation id; one `payment.requested` for the order's customer and total in USD; logs (inventory_reservation, completed) then (payment_processing, started) |
| OrderSaga.OnInventoryReserveFailed | services/order_service/saga_orchestrator.py:190-215 | the order fails with the inventory's reason; one failed log row and one `order.failed` at step inventory_reservation |
| OrderSaga.OnPaymentProcessed | services/order_service/saga_orchestrator.py:231-263 | the order is confirmed with the transaction id; one `order.confirmed`; two completed log rows, payment_processing then order_confirmation |
| OrderSaga.OnPaymentFailed | services/order_service/saga_orchestrator.py:279-325 | the order fails with the payment's reason; when a reservation is recorded an `inventory.released` and a compensated log row come before `order.failed`, otherwise `order.failed` alone; every event follows the incoming one |
| OrderSaga.StartEventsRoundTrip | services/order_service/saga_orchestrator.py:62-122 | the events the start saves decode from the outbox back to themselves |
| OrderSaga.ReservedEventsRoundTrip | services/order_service/saga_orchestrator.py:155-165 | the payment request decodes from the outbox back to itself |
| OrderSaga.ReserveFailedEventsRoundTrip | services/order_service/saga_orchestrator.py:206-215 | the `order.failed` event decodes from the outbox back to itself |
| OrderSaga.PaymentProcessedEventsRoundTrip | services/order_service/saga_orchestrator.py:247-254 | the `order.confirmed` event decodes from the outbox back to itself |
| OrderSaga.PaymentFailedEventsRoundTrip | services/order_service/saga_orchestrator.py:295-325 | the release and `order.failed` events decode from the outbox back to themselves |
| OrderSaga.NoStatusGuard | services/order_service/saga_orchestrator.py:128-329 | the handlers ignore the order's current status: any order receiving `payment.failed` becomes failed, `payment.processed` confirmed, `inventory.reserved` inventory_reserved |
| OrderSaga.HappyPathOrder | services/order_service/saga_orchestrator.py:40-267 | start, reservation, payment: the order ends confirmed at the confirmation step with both ids recorded and its items and correlation id kept |
| OrderSaga.HappyPathLogs | services/order_service/saga_orchestrator.py:90-263 | the successful saga logs six rows of the order in its correlation, with the steps and statuses in the order the handlers write them |
| OrderSaga.HappyPathEvents | services/order_service/saga_orchestrator.py:62-263 | the successful saga saves `order.placed`, `inventory.reserve.requested`, `payment.requested`, `order.confirmed` in that order, all in one correlation, each caused by the previous step's event |
| OrderSaga.PaymentFailurePath | services/order_service/saga_orchestrator.py:139-325 | a payment failure after a reservation releases exactly that reservation, then fails the order at the payment step, both events caused by the failure |
| OrderSaga.ReserveFailurePath | services/order_service/saga_orchestrator.py:40-215 | a reservation failure after the start fails the order at the inventory step, and no payment is ever requested |
| OrderSaga.SagaOrchestrator.GetOrder | services/order_service/saga_orchestrator.py:331-336 | finds the order exactly when its id is stored |
| OrderSaga.SagaOrchestrator.LogSagaStep | services/order_service/saga_orchestrator.py:338-359 | appends exactly the one log row |
| OrderSaga.SagaOrchestrator.Commit | services/order_service/saga_orchestrator.py:74-122 | stores the order, appends the log rows and saves the events to the outbox, keeping the tables valid |
| OrderSaga.SagaOrchestrator.StartOrderSaga | services/order_service/saga_orchestrator.py:40-126 | commits exactly the spec start and returns its order |
| OrderSaga.SagaOrchestrator.HandleInventoryReserved | services/order_service/saga_orchestrator.py:128-178 | an unknown order changes nothing; otherwise commits exactly the spec step |
| OrderSaga.SagaOrchestrator.HandleInventoryReserveFailed | services/order_service/saga_orchestrator.py:180-219 | an unknown order changes nothing; otherwise commits exactly the spec step |
| OrderSaga.SagaOrchestrator.HandlePaymentProcessed | services/order_service/saga_orchestrator.py:221-267 | an unknown order changes nothing; otherwise commits exactly the spec step |
| OrderSaga.SagaOrchestrator.HandlePaymentFailed | services/order_service/saga_orchestrator.py:269-329 | an unknown order changes nothing; otherwise commits exactly the spec step |
| OrderService.TotalAmountAppend | services/order_service/app.py:163 | the total of two item lists is the sum of their totals |
| OrderService.TotalAmountSnoc | services/order_service/app.py:163 | each item adds exactly its price times its quantity |
| OrderService.TotalAmountNonNegative | services/order_service/app.py:163 | with no negative price or quantity the total is not negative |
| OrderService.TotalAmountExample | services/order_service/app.py:163 | two units at 25.00 cost 50.00 |
| OrderService.CreateOrder | services/order_service/app.py:147-183 | starts the saga with the request's items exactly as given and their total, and answers with the pending order |
| OrderService.Find | services/order_service/app.py:267-289 | a handler is found exactly when some route is bound to the type, and it is that route's handler |
| OrderService.Routing | services/order_service/app.py:242-289 | each of the four saga replies reaches its own handler, and no other event type reaches the orchestrator |
| OrderService.RoutedClassMatches | services/order_service/app.py:242-264 | a routed event decodes into exactly the class its handler is written for |
| OrderService.RoutesDistinct | services/order_service/app.py:267-289 | the four queues have distinct names and distinct handlers |
| OrderService.LogsOf | services/order_service/app.py:212-214 | the rows kept are exactly the order's rows, each as often as stored |
| OrderService.SagaLogsForMeaning | services/order_service/app.py:212-217 | the saga log of an order is exactly that order's rows, sorted by creation time |
| OrderService.GetSagaLogs | services/order_service/app.py:219-229 | one response row per sorted log row, showing its step, event type and status |
| OrderService.GetSagaLogsSorted | services/order_service/app.py:209-229 | the response belongs to the order and is in non-decreasing time |
| InventoryService.Shortage | services/inventory_service/app.py:235-245 | an item is short exactly when its product is missing or has fewer available units; the shortage reports the request and the available count, 0 for a missing product |
| InventoryService.Unavailable | services/inventory_service/app.py:230-245 | the list of shortages is empty exactly when no item is short |
| InventoryService.UnavailableMembers | services/inventory_service/app.py:230-245 | every short item's shortage is in the list, and everything in the list is the shortage of some item of the request |
| InventoryService.UnavailableInOrder | services/inventory_service/app.py:230-245 | the list is exactly the short items' shortages in request order: one entry per short item, at increasing request positions |
| InventoryService.AdjustEffect | services/inventory_service/app.py:266-342 | the per-item updates move each product by the total quantity the request names for it, and leave unknown products alone |
| InventoryService.StockConserved | services/inventory_service/app.py:274-340 | reserving or releasing keeps `available + reserved` of every product |
| InventoryService.ReleaseUndoesReserve | services/inventory_service/app.py:266-342 | releasing the items of a reservation restores every product's counts |
| InventoryService.NoOverdraw | services/inventory_service/app.py:231-277 | with at most one item per product, a request that passes the check leaves no product below zero |
| InventoryService.DuplicateItemsOverdraw | services/inventory_service/app.py:231-277 | two items of the same product pass the check one by one yet leave the product at -1 |
| Common.FindFirst | services/inventory_service/app.py:208-211 | the row lookup behind each `select(...).where(...)` of the handlers, over a table kept in insertion order: the index found satisfies the condition and no earlier row does, and nothing is found exactly when no row satisfies it |
| Common.FindFirstUnique | services/inventory_service/app.py:208-211 | when exactly one row satisfies the condition, that row is the one found |
| Common.SortByStable | shared/outbox.py:130-131 | the ORDER BY model is stable: rows with equal keys keep their table order |
| InventoryService.FindByOrder | services/inventory_service/app.py:208-211 | finds a reservation of the order exactly when one exists |
| InventoryService.FindReservation | services/inventory_service/app.py:314-320 | finds a reservation with both the id and the order id exactly when one exists |
| InventoryService.OnReserveRequested | services/inventory_service/app.py:203-302 | an existing reservation is announced again with nothing changed; a shortage changes nothing and reports every short item; otherwise the stock moves, one active reservation holds the items, and it is announced; exactly one event, following the request |
| InventoryService.OnRelease | services/inventory_service/app.py:309-355 | an unknown or already released reservation changes nothing; otherwise its items return to stock and it becomes released at the current time; no event |
| InventoryService.ReserveThenRelease | services/inventory_service/app.py:266-346 | a reservation followed by its release restores every product and leaves the reservation released |
| InventoryService.ReleaseTwice | services/inventory_service/app.py:326-328 | a second release changes nothing |
| InventoryService.Inventory.CheckAvailability | services/inventory_service/app.py:230-245 | the availability loop collects exactly the spec shortages |
| InventoryService.Inventory.UpdateStock | services/inventory_service/app.py:266-342 | the update loop leaves exactly the spec adjustment |
| InventoryService.Inventory.HandleReserveRequested | services/inventory_service/app.py:203-307 | the tables and outbox match the spec handler |
| InventoryService.Inventory.HandleReleaseInventory | services/inventory_service/app.py:309-355 | the tables match the spec release |
| PaymentService.PaymentKeyInjective | services/payment_service/app.py:179 | different orders have different idempotency keys |
| PaymentService.ProcessPayment | services/payment_service/app.py:136-167 | the gateway declines exactly when the draw is below 0.2, with one of its four messages |
| PaymentService.FindByKey | services/payment_service/app.py:181-186 | finds a transaction with the key exactly when one exists |
| PaymentService.FindById | services/payment_service/app.py:309-312 | finds a transaction with the id exactly when one exists |
| PaymentService.NewTransaction | services/payment_service/app.py:222-232 | a new transaction is processing, keyed `payment_<order id>`, with the request's amount and currency |
| PaymentService.Replay | services/payment_service/app.py:194-216 | a completed transaction is announced again as processed with its stored id, amount and currency, a failed one as failed with its message or "Unknown error" and code PAYMENT_FAILED, any other announces nothing |
| PaymentService.Settle | services/payment_service/app.py:249-295 | approval completes the transaction and announces it, a decline fails it with the message and announces the reason or "Payment processing failed"; either way it is processed now |
| PaymentService.OnPaymentRequested | services/payment_service/app.py:174-302 | a known key adds nothing and replays the stored outcome; a new one adds exactly one transaction settled by the gateway; at most one event, a payment outcome following the request |
| PaymentService.OneTransactionPerOrder | services/payment_service/models.py:27-32 | the key constraint gives at most one transaction per order |
| PaymentService.RequestKeepsValid | services/payment_service/models.py:26-32 | a request with a fresh transaction id keeps ids and keys unique |
| PaymentService.NewRequestOutcome | services/payment_service/app.py:249-295 | a new request ends completed with `payment.processed` if and only if the gateway approves, otherwise failed with `payment.failed` |
| PaymentService.NewRequestStored | services/payment_service/app.py:222-235 | the new transaction is the one found under the order's key |
| PaymentService.RedeliveryReplays | services/payment_service/app.py:188-219 | a redelivery after the first request settled changes nothing and announces the same outcome |
| PaymentService.ProcessingIsSilent | services/payment_service/app.py:188-235 | a redelivery that finds the transaction still processing (between the two commits) emits nothing and changes nothing |
| PaymentService.OnRefund | services/payment_service/app.py:304-366 | an unknown, not completed or already refunded transaction changes nothing; otherwise one completed refund is added and the transaction becomes refunded |
| PaymentService.RefundTwice | services/payment_service/app.py:325-336 | a repeated refund changes nothing |
| PaymentService.Payments.BeginPayment | services/payment_service/app.py:222-235 | the first commit stores the processing transaction |
| PaymentService.Payments.CompletePayment | services/payment_service/app.py:249-297 | the second commit settles that transaction and saves its event |
| PaymentService.Payments.HandlePaymentRequested | services/payment_service/app.py:174-302 | the transactions and outbox match the spec handler with the gateway's answer |
| PaymentService.Payments.HandlePaymentRefund | services/payment_service/app.py:304-366 | the transactions and refunds match the spec refund |
| ShippingService.UpperHex | services/shipping_service/app.py:163 | upper-casing a hex digit gives an upper-case hex digit and keeps decimal digits |
| ShippingService.UpperHexInjective | services/shipping_service/app.py:163 | upper-casing loses no hex digit |
| ShippingService.TrackingNumber | services/shipping_service/app.py:163 | a tracking number is "TRK" followed by 12 upper-case hex digits |
| ShippingService.TrackingNumberInjective | services/shipping_service/app.py:163 | two tracking numbers are equal if and only if their uuids share the first twelve digits |
| ShippingService.FindShipment | services/shipping_service/app.py:139-142 | finds a shipment of the order exactly when one exists |
| ShippingService.AddressOf | services/shipping_service/app.py:150-177 | the address is the metadata's `shipping_address`, or empty when absent; a value that is not an object is refused |
| ShippingService.NoMetadataNoAddress | services/shipping_service/app.py:150 | an event with no metadata yields the empty address |
| ShippingService.OnOrderConfirmed | services/shipping_service/app.py:134-191 | a known order changes nothing; otherwise exactly one scheduled shipment with the address, the tracking number and delivery four days out, and one `shipping.scheduled` following the confirmation |
| ShippingService.ScheduledEventFields | services/shipping_service/app.py:169-179 | the announcement names the new shipment, has the order as aggregate, the confirmation as cause, its correlation id, and the estimate four days out |
| ShippingService.ConfirmedKeepsValid | services/shipping_service/models.py:27-31 | a fresh shipment id and tracking number keep at most one shipment per order and unique tracking numbers |
| ShippingService.ConfirmTwice | services/shipping_service/app.py:139-146 | a redelivered confirmation schedules nothing more |
| ShippingService.GetShipment | services/shipping_service/app.py:103-121 | answers with the order's shipment, or not found exactly when the order has none |
| ShippingService.ScheduledIsVisible | services/shipping_service/app.py:103-166 | after a confirmation is handled, the order's shipment can be read |
| ShippingService.Shipping.HandleOrderConfirmed | services/shipping_service/app.py:134-191 | the table and outbox match the spec handler; a refused address fails the handler with nothing changed |
| SagaWiring.OrderBindings | services/order_service/app.py:267-289 | the order service listens to exactly the four saga replies |
| SagaWiring.InventoryBindings | services/inventory_service/app.py:358-368 | the inventory service listens to exactly reservation requests and releases |
| SagaWiring.PaymentBindings | services/payment_service/app.py:369-379 | the payment service listens to exactly payment requests and refunds |
| SagaWiring.ShippingBindings | services/shipping_service/app.py:194-198 | the shipping service listens to exactly order confirmations |
| SagaWiring.CommandsReachTheirServices | services/order_service/saga_orchestrator.py:100-304 | the reserve request and the release reach the inventory, the payment request the payments, the confirmation the shipping |
| SagaWiring.InventoryRepliesReachOrchestrator | services/inventory_service/app.py:217-298 | whatever the inventory answers to a reserve request reaches the orchestrator |
| SagaWiring.PaymentRepliesReachOrchestrator | services/payment_service/app.py:196-291 | whatever the payments answer to a payment request reaches the orchestrator |
| SagaWiring.RefundQueueIsBound | services/payment_service/app.py:375-379 | the refund queue is bound to `payment.refunded` |
| SagaWiring.StartRequestsNoRefund | services/order_service/saga_orchestrator.py:62-122 | starting a saga requests no refund |
| SagaWiring.ReservedRequestsNoRefund | services/order_service/saga_orchestrator.py:139-174 | a reservation requests no refund |
| SagaWiring.ReserveFailedRequestsNoRefund | services/order_service/saga_orchestrator.py:190-215 | a reservation failure requests no refund |
| SagaWiring.ProcessedRequestsNoRefund | services/order_service/saga_orchestrator.py:231-263 | a payment requests no refund |
| SagaWiring.PaymentFailedRequestsNoRefund | services/order_service/saga_orchestrator.py:279-325 | a payment failure compensates by releasing stock, never by a refund |

## Left out

- Asynchronous machinery is not modelled: the event loop, `asyncio.sleep`, the poll loop `_poll_and_publish`, and task cancellation as a coroutine. One publish pass and one delivery are modelled; the delay before a retry is a returned value, not a wait.
- `connect`'s tenacity retry and exchange and queue declaration as network calls are not modelled. `connect` sets the connection and exchange flags.
- JSON and pydantic are not modelled. Events are a datatype; pydantic validation of a decoded event is reduced to "the payload is of the class the registry picks".
- Topic-pattern matching (`*`, `#`) is not modelled. A pattern subscription is a binding value, and `SagaWiring` relies only on the type bindings the services use.
- Money is integer cents instead of Python floats; the code only adds, multiplies and copies amounts.
- Timestamps are whole seconds; `timedelta(days=4)` is four times 86400.
- Surrogate primary keys (`outbox.id`, `saga_logs.id`) are not modelled; rows are identified by position.
- `retry_count` is stored as text in the outbox table; the model keeps the number.
- `MessageBroker.ReadRetryCount`: `int()` on a text header is modelled for an optional sign followed by decimal digits. Python also accepts surrounding whitespace and single underscores between digits; such headers are read as unreadable here.
- `Outbox.SelectOldest`: rows with equal `created_at` are taken in table order (`Common.SortByStable`). `ORDER BY created_at LIMIT n` leaves their order, and so which of them fall inside the limit, to the database.
- `Outbox.PassRows`: one timestamp `now` stands for every `datetime.utcnow()` of a pass. The code reads the clock once per published row, so rows published in the same pass may carry slightly different `published_at` values.
- The `event_data`, `payment_method`, `payment_gateway_response` and `refund_gateway_response` JSON columns are kept only where a handler reads or writes a field of them.
- `MessageBroker.Broker.GetDeadLetterMessages`: `queue.get(timeout=1.0)` raising on an empty queue is not modelled; the model follows the `if not message: break` branch the code writes.
- `PaymentService.OnRefund`: the refund row takes its primary key from the event's `refund_id`; a clash of that key with an existing refund (a database error) is not modelled.
- `PaymentService.Payments.SaveEvents` handles at most one event, the most any payment handler emits.
- `MessageBroker.Redeliveries`: the run of an always-failing message is computed with a fuel bound; runs longer than the fuel are cut off, and the lemmas choose a fuel above `max_retries - c + 1`.
- `OrderService.SagaLogsFor`: rows with equal `created_at` keep table order; the query leaves their order open.
- `OrderSaga.SagaOrchestrator` handlers require the fresh event ids to be unused, standing in for `uuid4()` uniqueness; a clash would be a database error in the code.
- `payment_method` is accepted by `start_order_saga` and never used; the payment request always carries `{"type": "credit_card"}`, as the code does.
- HTTP routing and errors of the FastAPI endpoints are not modelled beyond the bodies: `create_order`, `get_saga_logs` and `get_shipment`. A 404 is `None`.
- The order service's `get_order`, the inventory service's product and reservation endpoints, `seed_initial_data`, and the payment service's `get_transaction` are read-only lookups outside the saga and are not modelled.
- The ai, analytics, notification and web UI services are not modelled: they are not part of the saga (scoring, counters, logging and an HTTP proxy).
- `shared/database.py` and `shared/config.py` are not modelled: engine and settings setup.
