/** The order service's application layer: the order total, creating an
    order by starting its saga, the table that routes saga replies to the
    orchestrator's handlers, and reading an order's saga log. */
module OrderService {
  import opened Common
  import opened Events
  import opened MessageBroker
  import opened OrderSaga

  /** The body of `POST /orders`. */
  datatype CreateOrderRequest = CreateOrderRequest(
    customerId: Uuid, items: seq<OrderItem>, shippingAddress: Address, paymentMethod: PaymentMethod)

  /** The order as the API returns it. */
  datatype OrderResponse = OrderResponse(
    id: Uuid, customerId: Uuid, status: string, totalAmount: Cents, items: seq<OrderItem>,
    shippingAddress: Address, correlationId: Uuid, createdAt: Timestamp)

  function Respond(order: Order): OrderResponse {
    OrderResponse(order.id, order.customerId, StatusValue(order.status), order.totalAmount, order.items,
                  order.shippingAddress, order.correlationId, order.createdAt)
  }

  // ---------------------------------------------------------------------
  // The order total

  /** `sum(item.price * item.quantity for item in items)`. */
  function TotalAmount(items: seq<OrderItem>): Cents {
    if items == [] then 0 else items[0].price * items[0].quantity + TotalAmount(items[1..])
  }

  /** The total of two lists of items is the sum of their totals. */
  lemma {:induction false} TotalAmountAppend(a: seq<OrderItem>, b: seq<OrderItem>)
    ensures TotalAmount(a + b) == TotalAmount(a) + TotalAmount(b)
  {
    if a == [] {
      assert a + b == b;
    } else {
      assert (a + b)[1..] == a[1..] + b;
      TotalAmountAppend(a[1..], b);
    }
  }

  /** Each item adds its own line total: the total of `items + [x]` exceeds
      the total of `items` by `x.price * x.quantity`. */
  lemma TotalAmountSnoc(items: seq<OrderItem>, x: OrderItem)
    ensures TotalAmount(items + [x]) == TotalAmount(items) + x.price * x.quantity
  {
    TotalAmountAppend(items, [x]);
  }

  /** Prices and quantities are not checked for sign; when none is
      negative, neither is the total. */
  lemma {:induction false} TotalAmountNonNegative(items: seq<OrderItem>)
    requires forall k :: 0 <= k < |items| ==> items[k].price >= 0 && items[k].quantity >= 0
    ensures TotalAmount(items) >= 0
  {
    if items != [] {
      assert forall k :: 0 <= k < |items[1..]| ==> items[1..][k] == items[k + 1];
      TotalAmountNonNegative(items[1..]);
    }
  }

  /** Two units at 25.00 cost 50.00. */
  lemma TotalAmountExample(productId: Uuid)
    ensures TotalAmount([OrderItem(productId, 2, 2500)]) == 5000
  {
  }

  // ---------------------------------------------------------------------
  // POST /orders

  /** `create_order`: compute the total and start the saga with the items
      exactly as requested; the response shows the new order. */
  method CreateOrder(orchestrator: SagaOrchestrator, request: CreateOrderRequest,
                     orderId: Uuid, correlationId: Uuid, placedId: Uuid, requestId: Uuid, now: Timestamp)
    returns (response: OrderResponse)
    requires orchestrator.Valid()
    requires orderId !in orchestrator.orders
    requires forall id :: id in orchestrator.orders ==> orchestrator.orders[id].correlationId != correlationId
    requires placedId != requestId
    requires placedId !in orchestrator.outbox.EventIds() && requestId !in orchestrator.outbox.EventIds()
    modifies orchestrator, orchestrator.outbox
    ensures orchestrator.Valid()
    ensures var t := Start(orderId, request.customerId, request.items, TotalAmount(request.items),
                           request.shippingAddress, correlationId, placedId, requestId, now);
      response == Respond(t.order) &&
      orchestrator.Committed(old(orchestrator.orders), old(orchestrator.sagaLogs),
                             old(orchestrator.outbox.rows), t, now)
    ensures response.status == "pending" && response.items == request.items
    ensures response.totalAmount == TotalAmount(request.items)
  {
    var totalAmount := TotalAmount(request.items);
    var order := orchestrator.StartOrderSaga(request.customerId, request.items, totalAmount,
                                             request.shippingAddress, request.paymentMethod,
                                             orderId, correlationId, placedId, requestId, now);
    response := Respond(order);
  }

  // ---------------------------------------------------------------------
  // Routing saga replies

  /** The orchestrator handler a subscription calls. */
  datatype SagaHandler =
    | ToInventoryReserved | ToInventoryReserveFailed | ToPaymentProcessed | ToPaymentFailed

  /** The event class each handler is written for. */
  function HandlerClass(h: SagaHandler): EventClass {
    match h
    case ToInventoryReserved => InventoryReservedEvent
    case ToInventoryReserveFailed => InventoryReserveFailedEvent
    case ToPaymentProcessed => PaymentProcessedEvent
    case ToPaymentFailed => PaymentFailedEvent
  }

  datatype Route = Route(subscription: Subscription, handler: SagaHandler)

  /** `subscribe_to_events`: four queues, each bound to one event type,
      with the default retry budget. */
  const Routes: seq<Route> := [
    Route(Subscription("order_service_inventory_reserved", ForEvent(InventoryReserved), DefaultMaxRetries),
          ToInventoryReserved),
    Route(Subscription("order_service_inventory_failed", ForEvent(InventoryReserveFailed), DefaultMaxRetries),
          ToInventoryReserveFailed),
    Route(Subscription("order_service_payment_processed", ForEvent(PaymentProcessed), DefaultMaxRetries),
          ToPaymentProcessed),
    Route(Subscription("order_service_payment_failed", ForEvent(PaymentFailed), DefaultMaxRetries),
          ToPaymentFailed)
  ]

  /** The handler of the first route bound to `t`, if any. */
  function Find(routes: seq<Route>, t: EventType): (r: Option<SagaHandler>)
    ensures r.Some? <==> exists k :: 0 <= k < |routes| && routes[k].subscription.binding == ForEvent(t)
    ensures r.Some? ==> exists k :: 0 <= k < |routes| && routes[k].subscription.binding == ForEvent(t) &&
                                    routes[k].handler == r.value
  {
    if routes == [] then None
    else if routes[0].subscription.binding == ForEvent(t) then Some(routes[0].handler)
    else
      var r := Find(routes[1..], t);
      assert forall k :: 1 <= k < |routes| ==> routes[1..][k - 1] == routes[k];
      r
  }

  function HandlerFor(t: EventType): Option<SagaHandler> {
    Find(Routes, t)
  }

  /** Each saga reply reaches its handler, and no other event type reaches
      the orchestrator. */
  lemma Routing(t: EventType)
    ensures t == InventoryReserved ==> HandlerFor(t) == Some(ToInventoryReserved)
    ensures t == InventoryReserveFailed ==> HandlerFor(t) == Some(ToInventoryReserveFailed)
    ensures t == PaymentProcessed ==> HandlerFor(t) == Some(ToPaymentProcessed)
    ensures t == PaymentFailed ==> HandlerFor(t) == Some(ToPaymentFailed)
    ensures HandlerFor(t).Some? <==>
      t in {InventoryReserved, InventoryReserveFailed, PaymentProcessed, PaymentFailed}
  {
    RoutesInOrder(t);
  }

  /** The four routes are tried in the order they are declared. */
  lemma RoutesInOrder(t: EventType)
    ensures HandlerFor(t) ==
      if t == InventoryReserved then Some(ToInventoryReserved)
      else if t == InventoryReserveFailed then Some(ToInventoryReserveFailed)
      else if t == PaymentProcessed then Some(ToPaymentProcessed)
      else if t == PaymentFailed then Some(ToPaymentFailed)
      else None
  {
    var r1 := Routes[1..];
    var r2 := r1[1..];
    var r3 := r2[1..];
    assert r3[1..] == [];
    assert Find(Routes, t) == if t == InventoryReserved then Some(ToInventoryReserved) else Find(r1, t);
    assert Find(r1, t) == if t == InventoryReserveFailed then Some(ToInventoryReserveFailed) else Find(r2, t);
    assert Find(r2, t) == if t == PaymentProcessed then Some(ToPaymentProcessed) else Find(r3, t);
    assert Find(r3, t) == if t == PaymentFailed then Some(ToPaymentFailed) else None;
  }

  /** A routed event is decoded into exactly the class its handler is
      written for. */
  lemma RoutedClassMatches(t: EventType)
    requires HandlerFor(t).Some?
    ensures RegistryGet(t) == HandlerClass(HandlerFor(t).value)
  {
    Routing(t);
  }

  /** The four queues have distinct names and their handlers are distinct. */
  lemma RoutesDistinct()
    ensures forall a, b :: 0 <= a < b < |Routes| ==>
      Routes[a].subscription.queueName != Routes[b].subscription.queueName &&
      Routes[a].handler != Routes[b].handler
  {
  }

  // ---------------------------------------------------------------------
  // GET /orders/{order_id}/saga-logs

  /** `WHERE order_id = ...`: the rows of one order, in table order. */
  function LogsOf(logs: seq<SagaLog>, orderId: Uuid): (r: seq<SagaLog>)
    ensures forall k :: 0 <= k < |r| ==> r[k].orderId == orderId
    ensures forall l :: multiset(r)[l] == if l.orderId == orderId then multiset(logs)[l] else 0
  {
    if logs == [] then []
    else
      assert logs == [logs[0]] + logs[1..];
      (if logs[0].orderId == orderId then [logs[0]] else []) + LogsOf(logs[1..], orderId)
  }

  function CreatedAt(l: SagaLog): int {
    l.createdAt
  }

  /** `... ORDER BY created_at`. Rows with equal times keep table order here;
      the query leaves their order open. */
  function SagaLogsFor(logs: seq<SagaLog>, orderId: Uuid): seq<SagaLog> {
    SortBy(LogsOf(logs, orderId), CreatedAt)
  }

  /** The saga log of an order is exactly that order's rows, each as often
      as it is stored, sorted by creation time. */
  lemma SagaLogsForMeaning(logs: seq<SagaLog>, orderId: Uuid)
    ensures var r := SagaLogsFor(logs, orderId);
      SortedBy(r, CreatedAt) &&
      (forall k :: 0 <= k < |r| ==> r[k].orderId == orderId) &&
      (forall l :: multiset(r)[l] == if l.orderId == orderId then multiset(logs)[l] else 0)
  {
    var f := LogsOf(logs, orderId);
    var r := SortBy(f, CreatedAt);
    forall k | 0 <= k < |r| ensures r[k].orderId == orderId {
      assert r[k] in multiset(r);
      assert multiset(f)[r[k]] > 0;
    }
  }

  /** One row of the response. */
  datatype SagaLogResponse = SagaLogResponse(
    orderId: Uuid, step: string, eventType: string, status: string, createdAt: Timestamp)

  /** `get_saga_logs`: the order's sorted rows, each shown as its step,
      event type and status. */
  function GetSagaLogs(logs: seq<SagaLog>, orderId: Uuid): (r: seq<SagaLogResponse>)
    ensures var rows := SagaLogsFor(logs, orderId);
      |r| == |rows| &&
      forall k :: 0 <= k < |r| ==>
        r[k] == SagaLogResponse(rows[k].orderId, LogStepValue(rows[k].step), rows[k].eventType,
                                LogStatusValue(rows[k].status), rows[k].createdAt)
  {
    var rows := SagaLogsFor(logs, orderId);
    seq(|rows|, k requires 0 <= k < |rows| =>
      SagaLogResponse(rows[k].orderId, LogStepValue(rows[k].step), rows[k].eventType,
                      LogStatusValue(rows[k].status), rows[k].createdAt))
  }

  /** The response lists the order's rows in non-decreasing time and
      belongs entirely to the order. */
  lemma GetSagaLogsSorted(logs: seq<SagaLog>, orderId: Uuid)
    ensures var r := GetSagaLogs(logs, orderId);
      (forall i, j :: 0 <= i < j < |r| ==> r[i].createdAt <= r[j].createdAt) &&
      (forall k :: 0 <= k < |r| ==> r[k].orderId == orderId)
  {
    SagaLogsForMeaning(logs, orderId);
  }
}
