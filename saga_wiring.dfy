/** How the services' queue subscriptions connect the saga: every command
    the orchestrator emits is bound by the service that carries it out,
    and every reply those services emit is bound by the orchestrator. */
module SagaWiring {
  import opened Common
  import opened Events
  import opened MessageBroker
  import opened OrderSaga
  import OrderService
  import InventoryService
  import PaymentService
  import ShippingService

  datatype Service = OrderSvc | InventorySvc | PaymentSvc | ShippingSvc

  /** The queues each service declares in `subscribe_to_events`. */
  function SubscriptionsOf(s: Service): (subs: seq<Subscription>)
    ensures |subs| > 0
  {
    match s
    case OrderSvc =>
      seq(|OrderService.Routes|, k requires 0 <= k < |OrderService.Routes| => OrderService.Routes[k].subscription)
    case InventorySvc => InventoryService.Subscriptions
    case PaymentSvc => PaymentService.Subscriptions
    case ShippingSvc => ShippingService.Subscriptions
  }

  /** Some queue of the service is bound to the event type. */
  predicate Listens(s: Service, t: EventType) {
    exists k :: 0 <= k < |SubscriptionsOf(s)| && SubscriptionsOf(s)[k].binding == ForEvent(t)
  }

  /** The event types each service is bound to, exactly. */
  lemma OrderBindings(t: EventType)
    ensures Listens(OrderSvc, t) <==> t in {InventoryReserved, InventoryReserveFailed, PaymentProcessed, PaymentFailed}
  {
    var o := SubscriptionsOf(OrderSvc);
    assert o[0].binding == ForEvent(InventoryReserved) && o[1].binding == ForEvent(InventoryReserveFailed);
    assert o[2].binding == ForEvent(PaymentProcessed) && o[3].binding == ForEvent(PaymentFailed);
    if Listens(OrderSvc, t) {
      var k :| 0 <= k < |o| && o[k].binding == ForEvent(t);
      assert k == 0 || k == 1 || k == 2 || k == 3;
    }
  }

  lemma InventoryBindings(t: EventType)
    ensures Listens(InventorySvc, t) <==> t in {InventoryReserveRequested, InventoryReleased}
  {
    var i := SubscriptionsOf(InventorySvc);
    assert i[0].binding == ForEvent(InventoryReserveRequested) && i[1].binding == ForEvent(InventoryReleased);
    if Listens(InventorySvc, t) {
      var k :| 0 <= k < |i| && i[k].binding == ForEvent(t);
      assert k == 0 || k == 1;
    }
  }

  lemma PaymentBindings(t: EventType)
    ensures Listens(PaymentSvc, t) <==> t in {PaymentRequested, PaymentRefunded}
  {
    var p := SubscriptionsOf(PaymentSvc);
    assert p[0].binding == ForEvent(PaymentRequested) && p[1].binding == ForEvent(PaymentRefunded);
    if Listens(PaymentSvc, t) {
      var k :| 0 <= k < |p| && p[k].binding == ForEvent(t);
      assert k == 0 || k == 1;
    }
  }

  lemma ShippingBindings(t: EventType)
    ensures Listens(ShippingSvc, t) <==> t == OrderConfirmed
  {
    var s := SubscriptionsOf(ShippingSvc);
    assert s[0].binding == ForEvent(OrderConfirmed);
  }

  /** The order's commands reach their services: the reservation request
      the inventory, the payment request the payments, the compensating
      release the inventory, and the confirmation the shipping. */
  lemma CommandsReachTheirServices(orderId: Uuid, customerId: Uuid, items: seq<OrderItem>, totalAmount: Cents,
                                   shippingAddress: Address, correlationId: Uuid, placedId: Uuid, requestId: Uuid,
                                   order: Order, e: Event, id1: Uuid, id2: Uuid, now: Timestamp)
    ensures Listens(InventorySvc, Start(orderId, customerId, items, totalAmount, shippingAddress, correlationId,
                                        placedId, requestId, now).events[1].eventType)
    ensures e.payload.InventoryReservedData? ==>
      Listens(PaymentSvc, OnInventoryReserved(order, e, id1, now).events[0].eventType)
    ensures e.payload.PaymentProcessedData? ==>
      Listens(ShippingSvc, OnPaymentProcessed(order, e, id1, now).events[0].eventType)
    ensures e.payload.PaymentFailedData? && order.reservationId.Some? ==>
      Listens(InventorySvc, OnPaymentFailed(order, e, id1, id2, now).events[0].eventType)
  {
    InventoryBindings(InventoryReserveRequested);
    PaymentBindings(PaymentRequested);
    ShippingBindings(OrderConfirmed);
    InventoryBindings(InventoryReleased);
    if e.payload.PaymentFailedData? && order.reservationId.Some? {
      var t := OnPaymentFailed(order, e, id1, id2, now);
      assert t.events[0].payload.InventoryReleasedData?;
      assert Some(t.events[0].eventType) == DefaultEventType(ClassOf(t.events[0].payload));
    }
  }

  /** The inventory's reply to a reservation request reaches the
      orchestrator. */
  lemma InventoryRepliesReachOrchestrator(products: map<Uuid, InventoryService.Product>,
                                          rs: seq<InventoryService.Reservation>, request: Event,
                                          reservationId: Uuid, eventId: Uuid, now: Timestamp)
    requires request.payload.InventoryReserveRequestedData?
    ensures Listens(OrderSvc, InventoryService.OnReserveRequested(products, rs, request, reservationId, eventId, now)
                                .events[0].eventType)
  {
    OrderBindings(InventoryReserved);
    OrderBindings(InventoryReserveFailed);
    var r := InventoryService.OnReserveRequested(products, rs, request, reservationId, eventId, now).events[0];
    assert Some(r.eventType) == DefaultEventType(ClassOf(r.payload));
  }

  /** The payments' reply to a payment request, when there is one, reaches
      the orchestrator. */
  lemma PaymentRepliesReachOrchestrator(txs: seq<PaymentService.Transaction>, payment: Event, transactionId: Uuid,
                                        result: PaymentService.GatewayResult, gatewayTransactionId: Uuid,
                                        eventId: Uuid, now: Timestamp)
    requires payment.payload.PaymentRequestedData?
    ensures var s := PaymentService.OnPaymentRequested(txs, payment, transactionId, result, gatewayTransactionId,
                                                       eventId, now);
      forall k :: 0 <= k < |s.events| ==> Listens(OrderSvc, s.events[k].eventType)
  {
    OrderBindings(PaymentProcessed);
    OrderBindings(PaymentFailed);
    var s := PaymentService.OnPaymentRequested(txs, payment, transactionId, result, gatewayTransactionId,
                                               eventId, now);
    forall k | 0 <= k < |s.events| ensures Listens(OrderSvc, s.events[k].eventType) {
      assert Some(s.events[k].eventType) == DefaultEventType(ClassOf(s.events[k].payload));
    }
  }

  /** None of the events is a refund request. */
  predicate NoRefund(events: seq<Event>) {
    forall k :: 0 <= k < |events| ==> events[k].eventType != PaymentRefunded
  }

  /** The payments' refund queue is bound, but no step of the orchestrator
      publishes to it: nothing in the saga asks for a refund. */
  lemma RefundQueueIsBound()
    ensures Listens(PaymentSvc, PaymentRefunded)
  {
    PaymentBindings(PaymentRefunded);
  }

  lemma StartRequestsNoRefund(orderId: Uuid, customerId: Uuid, items: seq<OrderItem>, totalAmount: Cents,
                              shippingAddress: Address, correlationId: Uuid, placedId: Uuid, requestId: Uuid,
                              now: Timestamp)
    ensures NoRefund(Start(orderId, customerId, items, totalAmount, shippingAddress, correlationId,
                           placedId, requestId, now).events)
  {
  }

  lemma ReservedRequestsNoRefund(order: Order, e: Event, paymentId: Uuid, now: Timestamp)
    requires e.payload.InventoryReservedData?
    ensures NoRefund(OnInventoryReserved(order, e, paymentId, now).events)
  {
  }

  lemma ReserveFailedRequestsNoRefund(order: Order, e: Event, failedId: Uuid, now: Timestamp)
    requires e.payload.InventoryReserveFailedData?
    ensures NoRefund(OnInventoryReserveFailed(order, e, failedId, now).events)
  {
  }

  lemma ProcessedRequestsNoRefund(order: Order, e: Event, confirmedId: Uuid, now: Timestamp)
    requires e.payload.PaymentProcessedData?
    ensures NoRefund(OnPaymentProcessed(order, e, confirmedId, now).events)
  {
  }

  /** Payment failure compensates by releasing the stock, never by a
      refund. */
  lemma PaymentFailedRequestsNoRefund(order: Order, e: Event, releaseId: Uuid, failedId: Uuid, now: Timestamp)
    requires e.payload.PaymentFailedData?
    ensures NoRefund(OnPaymentFailed(order, e, releaseId, failedId, now).events)
  {
    var t := OnPaymentFailed(order, e, releaseId, failedId, now);
    forall k | 0 <= k < |t.events| ensures t.events[k].eventType != PaymentRefunded {
      assert Some(t.events[k].eventType) == DefaultEventType(ClassOf(t.events[k].payload));
    }
  }
}
