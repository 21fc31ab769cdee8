/** The order saga's orchestrator: the order record, the saga audit log,
    and the five steps that react to the saga's events by updating the
    order, appending log rows and saving follow-up events to the outbox.
    No handler looks at the order's current status before acting. */
module OrderSaga {
  import opened Common
  import opened Events
  import opened Outbox

  datatype OrderStatus =
    | StatusPending | StatusInventoryReserved | StatusPaymentProcessing
    | StatusConfirmed | StatusCancelled | StatusFailed

  function StatusValue(s: OrderStatus): string {
    match s
    case StatusPending => "pending"
    case StatusInventoryReserved => "inventory_reserved"
    case StatusPaymentProcessing => "payment_processing"
    case StatusConfirmed => "confirmed"
    case StatusCancelled => "cancelled"
    case StatusFailed => "failed"
  }

  datatype SagaStep =
    | StepOrderPlaced | StepInventoryReservation | StepPaymentProcessing
    | StepShippingScheduling | StepOrderConfirmation

  function StepValue(s: SagaStep): string {
    match s
    case StepOrderPlaced => "order_placed"
    case StepInventoryReservation => "inventory_reservation"
    case StepPaymentProcessing => "payment_processing"
    case StepShippingScheduling => "shipping_scheduling"
    case StepOrderConfirmation => "order_confirmation"
  }

  /** The `step` column of a log row: a saga step, or the compensation
      that releases inventory. */
  datatype LogStep = AtStep(step: SagaStep) | Compensation

  function LogStepValue(s: LogStep): string {
    match s
    case AtStep(step) => StepValue(step)
    case Compensation => "compensation"
  }

  datatype LogStatus = LogStarted | LogCompleted | LogFailed | LogCompensated

  function LogStatusValue(s: LogStatus): string {
    match s
    case LogStarted => "started"
    case LogCompleted => "completed"
    case LogFailed => "failed"
    case LogCompensated => "compensated"
  }

  /** The order aggregate. */
  datatype Order = Order(
    id: Uuid,
    customerId: Uuid,
    status: OrderStatus,
    currentSagaStep: SagaStep,
    items: seq<OrderItem>,
    totalAmount: Cents,
    shippingAddress: Address,
    correlationId: Uuid,
    reservationId: Option<Uuid>,
    transactionId: Option<Uuid>,
    shippingId: Option<Uuid>,
    errorMessage: Option<string>,
    createdAt: Timestamp)

  /** One row of the saga audit log. */
  datatype SagaLog = SagaLog(
    orderId: Uuid,
    correlationId: Uuid,
    step: LogStep,
    eventType: string,
    eventId: Uuid,
    status: LogStatus,
    errorMessage: Option<string>,
    createdAt: Timestamp)

  /** What one handler does to the tables: the order as it is afterwards,
      the log rows it appends and the events it saves to the outbox, each
      in the order the handler adds them. */
  datatype Transition = Transition(order: Order, logs: seq<SagaLog>, events: seq<Event>)

  /** The payment method every payment request carries. */
  const CreditCard: PaymentMethod := map["type" := "credit_card"]

  /** The reserve request's items: each order item's product and quantity. */
  function StockItems(items: seq<OrderItem>): (r: seq<StockItem>)
    ensures |r| == |items|
    ensures forall i :: 0 <= i < |items| ==>
      r[i].productId == items[i].productId && r[i].quantity == items[i].quantity
  {
    seq(|items|, i requires 0 <= i < |items| => StockItem(items[i].productId, items[i].quantity))
  }

  /** A saga log row that describes `e`: the row names the event's type and id. */
  predicate LogsEvent(l: SagaLog, e: Event) {
    l.eventType == Value(e.eventType) && l.eventId == e.eventId
  }

  /** Every event is a follow-up of `cause`: same correlation id, and
      `cause` as causation. */
  predicate AllCausedBy(events: seq<Event>, cause: Event) {
    forall k :: 0 <= k < |events| ==>
      events[k].correlationId == cause.correlationId && events[k].causationId == Some(cause.eventId)
  }

  /** Every log row belongs to the order and carries the saga's correlation id. */
  predicate AllLogsOf(logs: seq<SagaLog>, orderId: Uuid, correlationId: Uuid, now: Timestamp) {
    forall k :: 0 <= k < |logs| ==>
      logs[k].orderId == orderId && logs[k].correlationId == correlationId && logs[k].createdAt == now
  }

  // ---------------------------------------------------------------------
  // The saga steps on values

  /** `start_order_saga`: a pending order, the placed event under a fresh
      correlation id, and the reserve request it causes. */
  function Start(orderId: Uuid, customerId: Uuid, items: seq<OrderItem>, totalAmount: Cents,
                 shippingAddress: Address, correlationId: Uuid, placedId: Uuid, requestId: Uuid,
                 now: Timestamp): (t: Transition)
    ensures t.order.id == orderId && t.order.customerId == customerId && t.order.items == items
    ensures t.order.totalAmount == totalAmount && t.order.shippingAddress == shippingAddress
    ensures t.order.correlationId == correlationId && t.order.createdAt == now
    ensures t.order.status == StatusPending && t.order.currentSagaStep == StepInventoryReservation
    ensures t.order.reservationId.None? && t.order.transactionId.None? && t.order.errorMessage.None?
    ensures |t.events| == 2
    ensures t.events[0].eventType == OrderPlaced && t.events[0].eventId == placedId
    ensures t.events[0].payload == OrderPlacedData(customerId, items, totalAmount, shippingAddress)
    ensures t.events[1].eventType == InventoryReserveRequested && t.events[1].eventId == requestId
    ensures t.events[1].payload == InventoryReserveRequestedData(orderId, StockItems(items))
    ensures t.events[0].correlationId == correlationId && t.events[1].correlationId == correlationId
    ensures t.events[0].causationId.None? && t.events[1].causationId == Some(placedId)
    ensures t.events[0].aggregateId == orderId && t.events[1].aggregateId == orderId
    ensures |t.logs| == 2 && AllLogsOf(t.logs, orderId, correlationId, now)
    ensures t.logs[0].step == AtStep(StepOrderPlaced) && t.logs[0].status == LogCompleted
    ensures t.logs[1].step == AtStep(StepInventoryReservation) && t.logs[1].status == LogStarted
    ensures LogsEvent(t.logs[0], t.events[0]) && LogsEvent(t.logs[1], t.events[1])
  {
    var order := Order(orderId, customerId, StatusPending, StepInventoryReservation, items,
                       totalAmount, shippingAddress, correlationId, None, None, None, None, now);
    var placed := NewEvent(placedId, orderId, now, correlationId, None,
                           OrderPlacedData(customerId, items, totalAmount, shippingAddress));
    var request := NewEvent(requestId, orderId, now, correlationId, Some(placedId),
                            InventoryReserveRequestedData(orderId, StockItems(items)));
    Transition(order,
               [SagaLog(orderId, correlationId, AtStep(StepOrderPlaced), Value(OrderPlaced),
                        placedId, LogCompleted, None, now),
                SagaLog(orderId, correlationId, AtStep(StepInventoryReservation),
                        Value(InventoryReserveRequested), requestId, LogStarted, None, now)],
               [placed, request])
  }

  /** `handle_inventory_reserved`: record the reservation and request the
      payment of the order's total. */
  function OnInventoryReserved(order: Order, e: Event, paymentId: Uuid, now: Timestamp): (t: Transition)
    requires e.payload.InventoryReservedData?
    ensures t.order == order.(status := StatusInventoryReserved,
                              reservationId := Some(e.payload.reservationId),
                              currentSagaStep := StepPaymentProcessing)
    ensures |t.events| == 1 && AllCausedBy(t.events, e)
    ensures t.events[0].eventType == PaymentRequested && t.events[0].eventId == paymentId
    ensures t.events[0].payload ==
      PaymentRequestedData(order.id, order.customerId, order.totalAmount, DefaultCurrency, CreditCard)
    ensures |t.logs| == 2 && AllLogsOf(t.logs, order.id, e.correlationId, now)
    ensures t.logs[0].step == AtStep(StepInventoryReservation) && t.logs[0].status == LogCompleted
    ensures t.logs[1].step == AtStep(StepPaymentProcessing) && t.logs[1].status == LogStarted
    ensures LogsEvent(t.logs[0], e) && LogsEvent(t.logs[1], t.events[0])
  {
    var payment := FollowUp(e, paymentId, order.id, now,
                            PaymentRequestedData(order.id, order.customerId, order.totalAmount,
                                                 DefaultCurrency, CreditCard));
    Transition(order.(status := StatusInventoryReserved,
                      reservationId := Some(e.payload.reservationId),
                      currentSagaStep := StepPaymentProcessing),
               [SagaLog(order.id, e.correlationId, AtStep(StepInventoryReservation), Value(e.eventType),
                        e.eventId, LogCompleted, None, now),
                SagaLog(order.id, e.correlationId, AtStep(StepPaymentProcessing), Value(PaymentRequested),
                        paymentId, LogStarted, None, now)],
               [payment])
  }

  /** `handle_inventory_reserve_failed`: fail the order with the
      inventory's reason; no payment is requested. */
  function OnInventoryReserveFailed(order: Order, e: Event, failedId: Uuid, now: Timestamp): (t: Transition)
    requires e.payload.InventoryReserveFailedData?
    ensures t.order == order.(status := StatusFailed, errorMessage := Some(e.payload.reason))
    ensures |t.events| == 1 && AllCausedBy(t.events, e)
    ensures t.events[0].eventType == OrderFailed && t.events[0].eventId == failedId
    ensures t.events[0].payload == OrderFailedData(order.id, e.payload.reason, "inventory_reservation")
    ensures |t.logs| == 1 && AllLogsOf(t.logs, order.id, e.correlationId, now)
    ensures t.logs[0].step == AtStep(StepInventoryReservation) && t.logs[0].status == LogFailed
    ensures t.logs[0].errorMessage == Some(e.payload.reason) && LogsEvent(t.logs[0], e)
  {
    var reason := e.payload.reason;
    Transition(order.(status := StatusFailed, errorMessage := Some(reason)),
               [SagaLog(order.id, e.correlationId, AtStep(StepInventoryReservation), Value(e.eventType),
                        e.eventId, LogFailed, Some(reason), now)],
               [FollowUp(e, failedId, order.id, now,
                         OrderFailedData(order.id, reason, "inventory_reservation"))])
  }

  /** `handle_payment_processed`: record the transaction and confirm. */
  function OnPaymentProcessed(order: Order, e: Event, confirmedId: Uuid, now: Timestamp): (t: Transition)
    requires e.payload.PaymentProcessedData?
    ensures t.order == order.(status := StatusConfirmed,
                              transactionId := Some(e.payload.transactionId),
                              currentSagaStep := StepOrderConfirmation)
    ensures |t.events| == 1 && AllCausedBy(t.events, e)
    ensures t.events[0].eventType == OrderConfirmed && t.events[0].eventId == confirmedId
    ensures t.events[0].payload == OrderConfirmedData(order.id)
    ensures |t.logs| == 2 && AllLogsOf(t.logs, order.id, e.correlationId, now)
    ensures t.logs[0].step == AtStep(StepPaymentProcessing) && t.logs[0].status == LogCompleted
    ensures t.logs[1].step == AtStep(StepOrderConfirmation) && t.logs[1].status == LogCompleted
    ensures LogsEvent(t.logs[0], e) && LogsEvent(t.logs[1], t.events[0])
  {
    Transition(order.(status := StatusConfirmed,
                      transactionId := Some(e.payload.transactionId),
                      currentSagaStep := StepOrderConfirmation),
               [SagaLog(order.id, e.correlationId, AtStep(StepPaymentProcessing), Value(e.eventType),
                        e.eventId, LogCompleted, None, now),
                SagaLog(order.id, e.correlationId, AtStep(StepOrderConfirmation), Value(OrderConfirmed),
                        confirmedId, LogCompleted, None, now)],
               [FollowUp(e, confirmedId, order.id, now, OrderConfirmedData(order.id))])
  }

  /** `handle_payment_failed`: fail the order; when inventory was reserved,
      release it first (the compensating action), then report the failure. */
  function OnPaymentFailed(order: Order, e: Event, releaseId: Uuid, failedId: Uuid, now: Timestamp): (t: Transition)
    requires e.payload.PaymentFailedData?
    ensures t.order == order.(status := StatusFailed, errorMessage := Some(e.payload.reason))
    ensures AllCausedBy(t.events, e) && AllLogsOf(t.logs, order.id, e.correlationId, now)
    ensures |t.events| == |t.logs| == (if order.reservationId.Some? then 2 else 1)
    ensures t.logs[0].step == AtStep(StepPaymentProcessing) && t.logs[0].status == LogFailed
    ensures t.logs[0].errorMessage == Some(e.payload.reason) && LogsEvent(t.logs[0], e)
    ensures var last := t.events[|t.events| - 1];
      last.eventType == OrderFailed && last.eventId == failedId &&
      last.payload == OrderFailedData(order.id, e.payload.reason, "payment_processing")
    ensures order.reservationId.Some? ==>
      t.events[0].eventType == InventoryReleased && t.events[0].eventId == releaseId &&
      t.events[0].payload == InventoryReleasedData(order.id, order.reservationId.value) &&
      t.logs[1].step == Compensation && t.logs[1].status == LogCompensated &&
      LogsEvent(t.logs[1], t.events[0])
  {
    var reason := e.payload.reason;
    var failedLog := SagaLog(order.id, e.correlationId, AtStep(StepPaymentProcessing), Value(e.eventType),
                             e.eventId, LogFailed, Some(reason), now);
    var failed := FollowUp(e, failedId, order.id, now, OrderFailedData(order.id, reason, "payment_processing"));
    var order' := order.(status := StatusFailed, errorMessage := Some(reason));
    match order.reservationId
    case Some(reservationId) =>
      var release := FollowUp(e, releaseId, order.id, now, InventoryReleasedData(order.id, reservationId));
      Transition(order',
                 [failedLog,
                  SagaLog(order.id, e.correlationId, Compensation, Value(InventoryReleased),
                          releaseId, LogCompensated, None, now)],
                 [release, failed])
    case None =>
      Transition(order', [failedLog], [failed])
  }

  // ---------------------------------------------------------------------
  // Properties of the steps

  /** Every event the saga saves is built from its class's defaults, so it
      decodes from the outbox back to itself. */
  predicate RoundTrips(events: seq<Event>) {
    forall k :: 0 <= k < |events| ==> Deserialize(Serialize(events[k])) == Success(events[k])
  }

  lemma ClassEventsRoundTrip(events: seq<Event>)
    requires forall k :: 0 <= k < |events| ==>
      events[k].payload != NoPayload && events[k].eventType in EventRegistry &&
      Some(events[k].eventType) == DefaultEventType(ClassOf(events[k].payload))
    ensures RoundTrips(events)
  {
    forall k | 0 <= k < |events|
      ensures Deserialize(Serialize(events[k])) == Success(events[k])
    {
      ClassEventRoundTrip(events[k]);
    }
  }

  lemma StartEventsRoundTrip(orderId: Uuid, customerId: Uuid, items: seq<OrderItem>, totalAmount: Cents,
                             shippingAddress: Address, correlationId: Uuid, placedId: Uuid, requestId: Uuid,
                             now: Timestamp)
    ensures RoundTrips(Start(orderId, customerId, items, totalAmount, shippingAddress, correlationId,
                             placedId, requestId, now).events)
  {
    ClassEventsRoundTrip(Start(orderId, customerId, items, totalAmount, shippingAddress, correlationId,
                               placedId, requestId, now).events);
  }

  lemma ReservedEventsRoundTrip(order: Order, e: Event, paymentId: Uuid, now: Timestamp)
    requires e.payload.InventoryReservedData?
    ensures RoundTrips(OnInventoryReserved(order, e, paymentId, now).events)
  {
    ClassEventsRoundTrip(OnInventoryReserved(order, e, paymentId, now).events);
  }

  lemma ReserveFailedEventsRoundTrip(order: Order, e: Event, failedId: Uuid, now: Timestamp)
    requires e.payload.InventoryReserveFailedData?
    ensures RoundTrips(OnInventoryReserveFailed(order, e, failedId, now).events)
  {
    ClassEventsRoundTrip(OnInventoryReserveFailed(order, e, failedId, now).events);
  }

  lemma PaymentProcessedEventsRoundTrip(order: Order, e: Event, confirmedId: Uuid, now: Timestamp)
    requires e.payload.PaymentProcessedData?
    ensures RoundTrips(OnPaymentProcessed(order, e, confirmedId, now).events)
  {
    ClassEventsRoundTrip(OnPaymentProcessed(order, e, confirmedId, now).events);
  }

  lemma PaymentFailedEventsRoundTrip(order: Order, e: Event, releaseId: Uuid, failedId: Uuid, now: Timestamp)
    requires e.payload.PaymentFailedData?
    ensures RoundTrips(OnPaymentFailed(order, e, releaseId, failedId, now).events)
  {
    ClassEventsRoundTrip(OnPaymentFailed(order, e, releaseId, failedId, now).events);
  }

  /** The handlers do not look at the order's status: a confirmed order
      that receives a late `payment.failed` becomes failed, and a failed
      order that receives `payment.processed` becomes confirmed. */
  lemma NoStatusGuard(order: Order, e: Event, id1: Uuid, id2: Uuid, now: Timestamp)
    ensures e.payload.PaymentFailedData? ==>
      OnPaymentFailed(order, e, id1, id2, now).order.status == StatusFailed
    ensures e.payload.PaymentProcessedData? ==>
      OnPaymentProcessed(order, e, id1, now).order.status == StatusConfirmed
    ensures e.payload.InventoryReservedData? ==>
      OnInventoryReserved(order, e, id1, now).order.status == StatusInventoryReserved
  {
  }

  /** An event of the given payload that the saga's downstream services
      send back for `order`, in the order's saga. */
  predicate Reply(e: Event, order: Order) {
    e.correlationId == order.correlationId &&
    match e.payload
    case InventoryReservedData(orderId, _, _) => orderId == order.id
    case InventoryReserveFailedData(orderId, _, _) => orderId == order.id
    case PaymentProcessedData(orderId, _, _, _) => orderId == order.id
    case PaymentFailedData(orderId, _, _) => orderId == order.id
    case _ => false
  }

  /** The successful saga: placed, then reserved, then paid, with both
      replies belonging to the order. */
  ghost predicate HappyReplies(order: Order, reserved: Event, paid: Event, reservedId: Uuid, now: Timestamp) {
    reserved.payload.InventoryReservedData? && paid.payload.PaymentProcessedData? &&
    Reply(reserved, order) && Reply(paid, OnInventoryReserved(order, reserved, reservedId, now).order)
  }

  /** On the happy path the order ends confirmed, at the confirmation
      step, with the reservation and the transaction recorded. */
  lemma HappyPathOrder(orderId: Uuid, customerId: Uuid, items: seq<OrderItem>, totalAmount: Cents,
                       shippingAddress: Address, correlationId: Uuid, ids: seq<Uuid>, now: Timestamp,
                       reserved: Event, paid: Event)
    requires |ids| == 4
    requires HappyReplies(Start(orderId, customerId, items, totalAmount, shippingAddress, correlationId,
                                ids[0], ids[1], now).order, reserved, paid, ids[2], now)
    ensures var t0 := Start(orderId, customerId, items, totalAmount, shippingAddress, correlationId,
                            ids[0], ids[1], now);
      var t1 := OnInventoryReserved(t0.order, reserved, ids[2], now);
      var t2 := OnPaymentProcessed(t1.order, paid, ids[3], now);
      t2.order.status == StatusConfirmed && t2.order.currentSagaStep == StepOrderConfirmation &&
      t2.order.reservationId == Some(reserved.payload.reservationId) &&
      t2.order.transactionId == Some(paid.payload.transactionId) &&
      t2.order.correlationId == correlationId && t2.order.items == items
  {
  }

  /** On the happy path the log holds six rows, all the saga's, with the
      (step, status) pairs placed/completed, reservation/started,
      reservation/completed, payment/started, payment/completed,
      confirmation/completed. */
  lemma HappyPathLogs(orderId: Uuid, customerId: Uuid, items: seq<OrderItem>, totalAmount: Cents,
                      shippingAddress: Address, correlationId: Uuid, ids: seq<Uuid>, now: Timestamp,
                      reserved: Event, paid: Event)
    requires |ids| == 4
    requires HappyReplies(Start(orderId, customerId, items, totalAmount, shippingAddress, correlationId,
                                ids[0], ids[1], now).order, reserved, paid, ids[2], now)
    ensures var t0 := Start(orderId, customerId, items, totalAmount, shippingAddress, correlationId,
                            ids[0], ids[1], now);
      var t1 := OnInventoryReserved(t0.order, reserved, ids[2], now);
      var t2 := OnPaymentProcessed(t1.order, paid, ids[3], now);
      var logs := t0.logs + t1.logs + t2.logs;
      |logs| == 6 && AllLogsOf(logs, orderId, correlationId, now) &&
      (forall k :: 0 <= k < |logs| ==> logs[k].status == (if k == 1 || k == 3 then LogStarted else LogCompleted)) &&
      [logs[0].step, logs[1].step, logs[2].step, logs[3].step, logs[4].step, logs[5].step] ==
        [AtStep(StepOrderPlaced), AtStep(StepInventoryReservation), AtStep(StepInventoryReservation),
         AtStep(StepPaymentProcessing), AtStep(StepPaymentProcessing), AtStep(StepOrderConfirmation)]
  {
    var t0 := Start(orderId, customerId, items, totalAmount, shippingAddress, correlationId,
                    ids[0], ids[1], now);
    var t1 := OnInventoryReserved(t0.order, reserved, ids[2], now);
    var t2 := OnPaymentProcessed(t1.order, paid, ids[3], now);
    var logs := t0.logs + t1.logs + t2.logs;
    assert logs == [t0.logs[0], t0.logs[1], t1.logs[0], t1.logs[1], t2.logs[0], t2.logs[1]];
  }

  /** On the happy path the outbox receives placed, reserve requested,
      payment requested and confirmed, all in the saga's correlation, each
      after the first caused by an earlier event of the saga. */
  lemma HappyPathEvents(orderId: Uuid, customerId: Uuid, items: seq<OrderItem>, totalAmount: Cents,
                        shippingAddress: Address, correlationId: Uuid, ids: seq<Uuid>, now: Timestamp,
                        reserved: Event, paid: Event)
    requires |ids| == 4
    requires HappyReplies(Start(orderId, customerId, items, totalAmount, shippingAddress, correlationId,
                                ids[0], ids[1], now).order, reserved, paid, ids[2], now)
    ensures var t0 := Start(orderId, customerId, items, totalAmount, shippingAddress, correlationId,
                            ids[0], ids[1], now);
      var t1 := OnInventoryReserved(t0.order, reserved, ids[2], now);
      var t2 := OnPaymentProcessed(t1.order, paid, ids[3], now);
      var events := t0.events + t1.events + t2.events;
      |events| == 4 &&
      (forall k :: 0 <= k < |events| ==> events[k].correlationId == correlationId) &&
      [events[0].eventType, events[1].eventType, events[2].eventType, events[3].eventType] ==
        [OrderPlaced, InventoryReserveRequested, PaymentRequested, OrderConfirmed] &&
      events[1].causationId == Some(ids[0]) && events[2].causationId == Some(reserved.eventId) &&
      events[3].causationId == Some(paid.eventId)
  {
    var t0 := Start(orderId, customerId, items, totalAmount, shippingAddress, correlationId,
                    ids[0], ids[1], now);
    var t1 := OnInventoryReserved(t0.order, reserved, ids[2], now);
    var t2 := OnPaymentProcessed(t1.order, paid, ids[3], now);
    var events := t0.events + t1.events + t2.events;
    assert events == [t0.events[0], t0.events[1], t1.events[0], t2.events[0]];
  }

  /** A payment failure after a reservation: the order fails at the
      payment step, the reservation is released before `order.failed` is
      saved, and both name the payment failure as their cause. */
  lemma PaymentFailurePath(order: Order, reserved: Event, failed: Event, ids: seq<Uuid>, now: Timestamp)
    requires |ids| == 3
    requires reserved.payload.InventoryReservedData? && failed.payload.PaymentFailedData?
    ensures var t1 := OnInventoryReserved(order, reserved, ids[0], now);
      var t2 := OnPaymentFailed(t1.order, failed, ids[1], ids[2], now);
      t2.order.status == StatusFailed && t2.order.errorMessage == Some(failed.payload.reason) &&
      |t2.events| == 2 &&
      t2.events[0].payload == InventoryReleasedData(order.id, reserved.payload.reservationId) &&
      t2.events[1].payload == OrderFailedData(order.id, failed.payload.reason, "payment_processing") &&
      [t2.logs[0].status, t2.logs[1].status] == [LogFailed, LogCompensated] &&
      AllCausedBy(t2.events, failed)
  {
  }

  /** A reservation failure right after the start: the order fails at the
      inventory step and the outbox receives `order.failed` and no payment
      request. */
  lemma ReserveFailurePath(orderId: Uuid, customerId: Uuid, items: seq<OrderItem>, totalAmount: Cents,
                           shippingAddress: Address, correlationId: Uuid, ids: seq<Uuid>, now: Timestamp,
                           rejected: Event)
    requires |ids| == 3 && rejected.payload.InventoryReserveFailedData?
    ensures var t0 := Start(orderId, customerId, items, totalAmount, shippingAddress, correlationId,
                            ids[0], ids[1], now);
      var t1 := OnInventoryReserveFailed(t0.order, rejected, ids[2], now);
      var events := t0.events + t1.events;
      t1.order.status == StatusFailed && t1.order.reservationId.None? &&
      t1.order.currentSagaStep == StepInventoryReservation &&
      [events[0].eventType, events[1].eventType, events[2].eventType] ==
        [OrderPlaced, InventoryReserveRequested, OrderFailed] &&
      (forall k :: 0 <= k < |events| ==> events[k].eventType != PaymentRequested)
  {
    var t0 := Start(orderId, customerId, items, totalAmount, shippingAddress, correlationId,
                    ids[0], ids[1], now);
    var t1 := OnInventoryReserveFailed(t0.order, rejected, ids[2], now);
    var events := t0.events + t1.events;
    assert events == [t0.events[0], t0.events[1], t1.events[0]];
  }

  // ---------------------------------------------------------------------
  // The orchestrator over its tables

  class SagaOrchestrator {
    var orders: map<Uuid, Order>
    var sagaLogs: seq<SagaLog>
    const outbox: OutboxStore

    /** Orders are stored under their id, and each has its own correlation id
        (the column is unique). */
    ghost predicate Valid()
      reads this, outbox
    {
      outbox.Valid() &&
      (forall id :: id in orders ==> orders[id].id == id) &&
      (forall a, b :: a in orders && b in orders && a != b ==> orders[a].correlationId != orders[b].correlationId)
    }

    constructor (store: OutboxStore)
      requires store.Valid()
      ensures Valid() && outbox == store && orders == map[] && sagaLogs == []
    {
      outbox := store;
      orders := map[];
      sagaLogs := [];
    }

    /** The tables after `t` has been committed on top of the given ones. */
    ghost predicate Committed(orders0: map<Uuid, Order>, logs0: seq<SagaLog>, rows0: seq<OutboxMessage>,
                              t: Transition, now: Timestamp)
      reads this, outbox
    {
      orders == orders0[t.order.id := t.order] && sagaLogs == logs0 + t.logs &&
      outbox.rows == rows0 + NewRows(t.events, now)
    }

    /** `t` may be committed: its order keeps a correlation id no other
        order has, and its events have fresh, distinct ids. */
    ghost predicate CanCommit(t: Transition)
      reads this, outbox
    {
      (forall id :: id in orders && id != t.order.id ==> orders[id].correlationId != t.order.correlationId) &&
      (forall k :: 0 <= k < |t.events| ==> t.events[k].eventId !in outbox.EventIds()) &&
      (forall a, b :: 0 <= a < b < |t.events| ==> t.events[a].eventId != t.events[b].eventId)
    }

    /** `_get_order`. */
    function GetOrder(orderId: Uuid): (r: Option<Order>)
      reads this
      ensures r.Some? <==> orderId in orders
      ensures r.Some? ==> r.value == orders[orderId]
    {
      if orderId in orders then Some(orders[orderId]) else None
    }

    /** `_log_saga_step`: append one log row. */
    method LogSagaStep(log: SagaLog)
      modifies this`sagaLogs
      ensures sagaLogs == old(sagaLogs) + [log]
    {
      sagaLogs := sagaLogs + [log];
    }

    /** One handler's session, up to `commit`: store the order, add its
        log rows and save its events to the outbox, one by one. */
    method Commit(t: Transition, now: Timestamp)
      requires Valid() && CanCommit(t)
      modifies this, outbox
      ensures Valid()
      ensures Committed(old(orders), old(sagaLogs), old(outbox.rows), t, now)
    {
      orders := orders[t.order.id := t.order];
      ghost var logs0 := sagaLogs;
      for i := 0 to |t.logs|
        modifies this`sagaLogs
        invariant sagaLogs == logs0 + t.logs[..i]
      {
        LogSagaStep(t.logs[i]);
        assert t.logs[..i + 1] == t.logs[..i] + [t.logs[i]];
      }
      assert t.logs[..|t.logs|] == t.logs;
      ghost var rows0 := outbox.rows;
      for i := 0 to |t.events|
        modifies outbox
        invariant outbox.Valid()
        invariant outbox.rows == rows0 + NewRows(t.events[..i], now)
        invariant forall k :: i <= k < |t.events| ==> t.events[k].eventId !in outbox.EventIds()
      {
        outbox.SaveEventToOutbox(t.events[i], now);
        assert t.events[..i + 1] == t.events[..i] + [t.events[i]];
        NewRowsAppend(t.events[..i], t.events[i], now);
      }
      assert t.events[..|t.events|] == t.events;
    }

    /** `start_order_saga`. The payment method is accepted and not used. */
    method StartOrderSaga(customerId: Uuid, items: seq<OrderItem>, totalAmount: Cents,
                          shippingAddress: Address, paymentMethod: PaymentMethod,
                          orderId: Uuid, correlationId: Uuid, placedId: Uuid, requestId: Uuid,
                          now: Timestamp)
      returns (order: Order)
      requires Valid()
      requires orderId !in orders
      requires forall id :: id in orders ==> orders[id].correlationId != correlationId
      requires placedId != requestId && placedId !in outbox.EventIds() && requestId !in outbox.EventIds()
      modifies this, outbox
      ensures Valid()
      ensures var t := Start(orderId, customerId, items, totalAmount, shippingAddress, correlationId,
                             placedId, requestId, now);
        order == t.order && Committed(old(orders), old(sagaLogs), old(outbox.rows), t, now)
    {
      var t := Start(orderId, customerId, items, totalAmount, shippingAddress, correlationId,
                     placedId, requestId, now);
      Commit(t, now);
      order := t.order;
    }

    /** `handle_inventory_reserved`. An unknown order changes nothing. */
    method HandleInventoryReserved(e: Event, paymentId: Uuid, now: Timestamp)
      requires Valid() && e.payload.InventoryReservedData? && paymentId !in outbox.EventIds()
      modifies this, outbox
      ensures Valid()
      ensures e.payload.orderId !in old(orders) ==>
        orders == old(orders) && sagaLogs == old(sagaLogs) && outbox.rows == old(outbox.rows)
      ensures e.payload.orderId in old(orders) ==>
        Committed(old(orders), old(sagaLogs), old(outbox.rows),
                  OnInventoryReserved(old(orders)[e.payload.orderId], e, paymentId, now), now)
    {
      var found := GetOrder(e.payload.orderId);
      if found.None? {
        return;
      }
      Commit(OnInventoryReserved(found.value, e, paymentId, now), now);
    }

    /** `handle_inventory_reserve_failed`. An unknown order changes nothing. */
    method HandleInventoryReserveFailed(e: Event, failedId: Uuid, now: Timestamp)
      requires Valid() && e.payload.InventoryReserveFailedData? && failedId !in outbox.EventIds()
      modifies this, outbox
      ensures Valid()
      ensures e.payload.orderId !in old(orders) ==>
        orders == old(orders) && sagaLogs == old(sagaLogs) && outbox.rows == old(outbox.rows)
      ensures e.payload.orderId in old(orders) ==>
        Committed(old(orders), old(sagaLogs), old(outbox.rows),
                  OnInventoryReserveFailed(old(orders)[e.payload.orderId], e, failedId, now), now)
    {
      var found := GetOrder(e.payload.orderId);
      if found.None? {
        return;
      }
      Commit(OnInventoryReserveFailed(found.value, e, failedId, now), now);
    }

    /** `handle_payment_processed`. An unknown order changes nothing. */
    method HandlePaymentProcessed(e: Event, confirmedId: Uuid, now: Timestamp)
      requires Valid() && e.payload.PaymentProcessedData? && confirmedId !in outbox.EventIds()
      modifies this, outbox
      ensures Valid()
      ensures e.payload.orderId !in old(orders) ==>
        orders == old(orders) && sagaLogs == old(sagaLogs) && outbox.rows == old(outbox.rows)
      ensures e.payload.orderId in old(orders) ==>
        Committed(old(orders), old(sagaLogs), old(outbox.rows),
                  OnPaymentProcessed(old(orders)[e.payload.orderId], e, confirmedId, now), now)
    {
      var found := GetOrder(e.payload.orderId);
      if found.None? {
        return;
      }
      Commit(OnPaymentProcessed(found.value, e, confirmedId, now), now);
    }

    /** `handle_payment_failed`. An unknown order changes nothing. */
    method HandlePaymentFailed(e: Event, releaseId: Uuid, failedId: Uuid, now: Timestamp)
      requires Valid() && e.payload.PaymentFailedData?
      requires releaseId != failedId && releaseId !in outbox.EventIds() && failedId !in outbox.EventIds()
      modifies this, outbox
      ensures Valid()
      ensures e.payload.orderId !in old(orders) ==>
        orders == old(orders) && sagaLogs == old(sagaLogs) && outbox.rows == old(outbox.rows)
      ensures e.payload.orderId in old(orders) ==>
        Committed(old(orders), old(sagaLogs), old(outbox.rows),
                  OnPaymentFailed(old(orders)[e.payload.orderId], e, releaseId, failedId, now), now)
    {
      var found := GetOrder(e.payload.orderId);
      if found.None? {
        return;
      }
      Commit(OnPaymentFailed(found.value, e, releaseId, failedId, now), now);
    }
  }
}
