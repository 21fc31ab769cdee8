/** The event envelope shared by all services: the event-type enumeration
    with its wire strings, the event classes and their payloads, the
    type -> class registry, and decoding with fallback to the base class. */
module Events {
  import opened Common

  // ---------------------------------------------------------------------
  // Event types

  datatype EventType =
    | OrderPlaced | OrderConfirmed | OrderCancelled | OrderFailed
    | InventoryReserveRequested | InventoryReserved | InventoryReserveFailed | InventoryReleased
    | PaymentRequested | PaymentProcessed | PaymentFailed | PaymentRefunded
    | ShippingScheduled | ShippingDispatched | ShippingDelivered | ShippingFailed
    | NotificationSent | NotificationFailed

  /** `e.value`: the string an event type is written as on the wire and used
      as the routing key. */
  function Value(t: EventType): string {
    match t
    case OrderPlaced => "order.placed"
    case OrderConfirmed => "order.confirmed"
    case OrderCancelled => "order.cancelled"
    case OrderFailed => "order.failed"
    case InventoryReserveRequested => "inventory.reserve.requested"
    case InventoryReserved => "inventory.reserved"
    case InventoryReserveFailed => "inventory.reserve.failed"
    case InventoryReleased => "inventory.released"
    case PaymentRequested => "payment.requested"
    case PaymentProcessed => "payment.processed"
    case PaymentFailed => "payment.failed"
    case PaymentRefunded => "payment.refunded"
    case ShippingScheduled => "shipping.scheduled"
    case ShippingDispatched => "shipping.dispatched"
    case ShippingDelivered => "shipping.delivered"
    case ShippingFailed => "shipping.failed"
    case NotificationSent => "notification.sent"
    case NotificationFailed => "notification.failed"
  }

  /** `EventType(s)`: the member whose value is `s`; `None` where Python
      raises ValueError. */
  function Parse(s: string): (r: Option<EventType>)
    ensures r.Some? ==> Value(r.value) == s
  {
    if s == "order.placed" then Some(OrderPlaced)
    else if s == "order.confirmed" then Some(OrderConfirmed)
    else if s == "order.cancelled" then Some(OrderCancelled)
    else if s == "order.failed" then Some(OrderFailed)
    else if s == "inventory.reserve.requested" then Some(InventoryReserveRequested)
    else if s == "inventory.reserved" then Some(InventoryReserved)
    else if s == "inventory.reserve.failed" then Some(InventoryReserveFailed)
    else if s == "inventory.released" then Some(InventoryReleased)
    else if s == "payment.requested" then Some(PaymentRequested)
    else if s == "payment.processed" then Some(PaymentProcessed)
    else if s == "payment.failed" then Some(PaymentFailed)
    else if s == "payment.refunded" then Some(PaymentRefunded)
    else if s == "shipping.scheduled" then Some(ShippingScheduled)
    else if s == "shipping.dispatched" then Some(ShippingDispatched)
    else if s == "shipping.delivered" then Some(ShippingDelivered)
    else if s == "shipping.failed" then Some(ShippingFailed)
    else if s == "notification.sent" then Some(NotificationSent)
    else if s == "notification.failed" then Some(NotificationFailed)
    else None
  }

  lemma ParseOrderValue(t: EventType)
    requires t == OrderPlaced || t == OrderConfirmed || t == OrderCancelled || t == OrderFailed
    ensures Parse(Value(t)) == Some(t)
  {
  }

  lemma ParseInventoryValue(t: EventType)
    requires t == InventoryReserveRequested || t == InventoryReserved || t == InventoryReserveFailed || t == InventoryReleased
    ensures Parse(Value(t)) == Some(t)
  {
  }

  lemma ParsePaymentValue(t: EventType)
    requires t == PaymentRequested || t == PaymentProcessed || t == PaymentFailed || t == PaymentRefunded
    ensures Parse(Value(t)) == Some(t)
  {
  }

  lemma ParseShippingValue(t: EventType)
    requires t == ShippingScheduled || t == ShippingDispatched || t == ShippingDelivered || t == ShippingFailed
    ensures Parse(Value(t)) == Some(t)
  {
  }

  lemma ParseNotificationValue(t: EventType)
    requires t == NotificationSent || t == NotificationFailed
    ensures Parse(Value(t)) == Some(t)
  {
  }

  /** Parsing a type's own value gives the type back. */
  lemma ParseValue(t: EventType)
    ensures Parse(Value(t)) == Some(t)
  {
    match t
    case OrderPlaced | OrderConfirmed | OrderCancelled | OrderFailed => ParseOrderValue(t);
    case InventoryReserveRequested | InventoryReserved | InventoryReserveFailed | InventoryReleased => ParseInventoryValue(t);
    case PaymentRequested | PaymentProcessed | PaymentFailed | PaymentRefunded => ParsePaymentValue(t);
    case ShippingScheduled | ShippingDispatched | ShippingDelivered | ShippingFailed => ParseShippingValue(t);
    case NotificationSent | NotificationFailed => ParseNotificationValue(t);
  }

  /** Every event type has its own string. */
  lemma ValueInjective(a: EventType, b: EventType)
    requires Value(a) == Value(b)
    ensures a == b
  {
    ParseValue(a);
    ParseValue(b);
  }

  /** A string is accepted by `EventType(...)` exactly when it is the value of
      some event type. */
  lemma ParseAcceptsOnlyValues(s: string)
    ensures Parse(s).Some? <==> exists t :: Value(t) == s
  {
    if exists t :: Value(t) == s {
      var t :| Value(t) == s;
      ParseValue(t);
    }
  }

  // ---------------------------------------------------------------------
  // Event payloads and classes

  datatype OrderItem = OrderItem(productId: Uuid, quantity: int, price: Cents)
  datatype StockItem = StockItem(productId: Uuid, quantity: int)
  datatype UnavailableItem = UnavailableItem(productId: Uuid, requested: int, available: int)

  /** A JSON object such as `payment_method`. */
  type PaymentMethod = map<string, string>

  /** Values of the free-form `metadata` dictionary. */
  datatype MetaValue = MetaText(text: string) | MetaInt(number: int) | MetaAddress(address: Address)

  /** The class-specific fields of an event; `NoPayload` is a plain
      `BaseEvent`, which has only the envelope. */
  datatype Payload =
    | NoPayload
    | OrderPlacedData(customerId: Uuid, items: seq<OrderItem>, totalAmount: Cents, shippingAddress: Address)
    | OrderConfirmedData(orderId: Uuid)
    | OrderCancelledData(orderId: Uuid, reason: string)
    | OrderFailedData(orderId: Uuid, reason: string, failedStep: string)
    | InventoryReserveRequestedData(orderId: Uuid, stockItems: seq<StockItem>)
    | InventoryReservedData(orderId: Uuid, reservationId: Uuid, stockItems: seq<StockItem>)
    | InventoryReserveFailedData(orderId: Uuid, reason: string, unavailableItems: seq<UnavailableItem>)
    | InventoryReleasedData(orderId: Uuid, reservationId: Uuid)
    | PaymentRequestedData(orderId: Uuid, customerId: Uuid, amount: Cents, currency: string, paymentMethod: PaymentMethod)
    | PaymentProcessedData(orderId: Uuid, transactionId: Uuid, amount: Cents, currency: string)
    | PaymentFailedData(orderId: Uuid, reason: string, errorCode: Option<string>)
    | PaymentRefundedData(orderId: Uuid, transactionId: Uuid, refundId: Uuid, amount: Cents)
    | ShippingScheduledData(orderId: Uuid, shippingId: Uuid, estimatedDelivery: Timestamp, shippingAddress: Address)
    | ShippingDispatchedData(orderId: Uuid, shippingId: Uuid, trackingNumber: string)
    | ShippingDeliveredData(orderId: Uuid, shippingId: Uuid, deliveredAt: Timestamp)
    | NotificationSentData(notificationType: string, recipient: string, subject: string)
    | NotificationFailedData(notificationType: string, recipient: string, reason: string)

  datatype EventClass =
    | BaseEvent
    | OrderPlacedEvent | OrderConfirmedEvent | OrderCancelledEvent | OrderFailedEvent
    | InventoryReserveRequestedEvent | InventoryReservedEvent | InventoryReserveFailedEvent | InventoryReleasedEvent
    | PaymentRequestedEvent | PaymentProcessedEvent | PaymentFailedEvent | PaymentRefundedEvent
    | ShippingScheduledEvent | ShippingDispatchedEvent | ShippingDeliveredEvent
    | NotificationSentEvent | NotificationFailedEvent

  /** The class whose fields a payload fills. */
  function ClassOf(p: Payload): EventClass {
    match p
    case NoPayload => BaseEvent
    case OrderPlacedData(_, _, _, _) => OrderPlacedEvent
    case OrderConfirmedData(_) => OrderConfirmedEvent
    case OrderCancelledData(_, _) => OrderCancelledEvent
    case OrderFailedData(_, _, _) => OrderFailedEvent
    case InventoryReserveRequestedData(_, _) => InventoryReserveRequestedEvent
    case InventoryReservedData(_, _, _) => InventoryReservedEvent
    case InventoryReserveFailedData(_, _, _) => InventoryReserveFailedEvent
    case InventoryReleasedData(_, _) => InventoryReleasedEvent
    case PaymentRequestedData(_, _, _, _, _) => PaymentRequestedEvent
    case PaymentProcessedData(_, _, _, _) => PaymentProcessedEvent
    case PaymentFailedData(_, _, _) => PaymentFailedEvent
    case PaymentRefundedData(_, _, _, _) => PaymentRefundedEvent
    case ShippingScheduledData(_, _, _, _) => ShippingScheduledEvent
    case ShippingDispatchedData(_, _, _) => ShippingDispatchedEvent
    case ShippingDeliveredData(_, _, _) => ShippingDeliveredEvent
    case NotificationSentData(_, _, _) => NotificationSentEvent
    case NotificationFailedData(_, _, _) => NotificationFailedEvent
  }

  /** The default of each class's `event_type` field; `BaseEvent` has none
      (the field is required there). */
  function DefaultEventType(c: EventClass): (r: Option<EventType>)
    ensures r.None? <==> c == BaseEvent
  {
    match c
    case BaseEvent => None
    case OrderPlacedEvent => Some(OrderPlaced)
    case OrderConfirmedEvent => Some(OrderConfirmed)
    case OrderCancelledEvent => Some(OrderCancelled)
    case OrderFailedEvent => Some(OrderFailed)
    case InventoryReserveRequestedEvent => Some(InventoryReserveRequested)
    case InventoryReservedEvent => Some(InventoryReserved)
    case InventoryReserveFailedEvent => Some(InventoryReserveFailed)
    case InventoryReleasedEvent => Some(InventoryReleased)
    case PaymentRequestedEvent => Some(PaymentRequested)
    case PaymentProcessedEvent => Some(PaymentProcessed)
    case PaymentFailedEvent => Some(PaymentFailed)
    case PaymentRefundedEvent => Some(PaymentRefunded)
    case ShippingScheduledEvent => Some(ShippingScheduled)
    case ShippingDispatchedEvent => Some(ShippingDispatched)
    case ShippingDeliveredEvent => Some(ShippingDelivered)
    case NotificationSentEvent => Some(NotificationSent)
    case NotificationFailedEvent => Some(NotificationFailed)
  }

  /** EVENT_REGISTRY: the class each event type is decoded into. */
  const EventRegistry: map<EventType, EventClass> := map[
    OrderPlaced := OrderPlacedEvent,
    OrderConfirmed := OrderConfirmedEvent,
    OrderCancelled := OrderCancelledEvent,
    OrderFailed := OrderFailedEvent,
    InventoryReserveRequested := InventoryReserveRequestedEvent,
    InventoryReserved := InventoryReservedEvent,
    InventoryReserveFailed := InventoryReserveFailedEvent,
    InventoryReleased := InventoryReleasedEvent,
    PaymentRequested := PaymentRequestedEvent,
    PaymentProcessed := PaymentProcessedEvent,
    PaymentFailed := PaymentFailedEvent,
    PaymentRefunded := PaymentRefundedEvent,
    ShippingScheduled := ShippingScheduledEvent,
    ShippingDispatched := ShippingDispatchedEvent,
    ShippingDelivered := ShippingDeliveredEvent
  ]

  /** `EVENT_REGISTRY.get(t, BaseEvent)`. */
  function RegistryGet(t: EventType): EventClass {
    if t in EventRegistry then EventRegistry[t] else BaseEvent
  }

  /** Each registered class's default `event_type` is the key it is
      registered under, so a registered type never decodes as `BaseEvent`. */
  lemma RegistryAgreesWithDefaults(t: EventType)
    requires t in EventRegistry
    ensures DefaultEventType(EventRegistry[t]) == Some(t)
    ensures EventRegistry[t] != BaseEvent
  {
  }

  /** Exactly three event types have no registered class. */
  lemma UnregisteredTypes(t: EventType)
    ensures t !in EventRegistry <==> t in {ShippingFailed, NotificationSent, NotificationFailed}
    ensures RegistryGet(t) == BaseEvent <==> t !in EventRegistry
  {
  }

  // ---------------------------------------------------------------------
  // The envelope

  datatype Event = Event(
    eventId: Uuid,
    eventType: EventType,
    aggregateId: Uuid,
    timestamp: Timestamp,
    version: int,
    correlationId: Uuid,
    causationId: Option<Uuid>,
    metadata: map<string, MetaValue>,
    payload: Payload)

  /** The JSON dictionary an event is stored and sent as (`model_dump`):
      the event type is its string. */
  datatype RawEvent = RawEvent(
    eventType: string,
    eventId: Uuid,
    aggregateId: Uuid,
    timestamp: Timestamp,
    version: int,
    correlationId: Uuid,
    causationId: Option<Uuid>,
    metadata: map<string, MetaValue>,
    payload: Payload)

  /** A new event of a payload's class, with the field defaults of
      `BaseEvent`: version 1, no causation id unless given, empty metadata. */
  function NewEvent(eventId: Uuid, aggregateId: Uuid, now: Timestamp, correlationId: Uuid,
                    causationId: Option<Uuid>, payload: Payload): (e: Event)
    requires payload != NoPayload
    ensures Some(e.eventType) == DefaultEventType(ClassOf(payload))
    ensures e.version == 1 && e.metadata == map[]
    ensures e.eventId == eventId && e.aggregateId == aggregateId && e.timestamp == now
    ensures e.correlationId == correlationId && e.causationId == causationId && e.payload == payload
  {
    Event(eventId, DefaultEventType(ClassOf(payload)).value, aggregateId, now, 1,
          correlationId, causationId, map[], payload)
  }

  /** An event emitted in reaction to `cause`: it keeps the saga's
      correlation id and names `cause` as its causation. */
  function FollowUp(cause: Event, eventId: Uuid, aggregateId: Uuid, now: Timestamp, payload: Payload): (e: Event)
    requires payload != NoPayload
    ensures e.correlationId == cause.correlationId && e.causationId == Some(cause.eventId)
    ensures e.eventId == eventId && e.aggregateId == aggregateId && e.payload == payload
  {
    NewEvent(eventId, aggregateId, now, cause.correlationId, Some(cause.eventId), payload)
  }

  /** `model_dump(mode='json')`. */
  function Serialize(e: Event): RawEvent {
    RawEvent(Value(e.eventType), e.eventId, e.aggregateId, e.timestamp, e.version,
             e.correlationId, e.causationId, e.metadata, e.payload)
  }

  datatype DecodeError = UnknownEventType(text: string) | ValidationError(expected: EventClass)

  function DecodeErrorText(err: DecodeError): string {
    match err
    case UnknownEventType(s) => "'" + s + "' is not a valid EventType"
    case ValidationError(_) => "validation error"
  }

  /** `deserialize_event`: parse the type, pick the registered class or
      `BaseEvent`, and build it. Building `BaseEvent` ignores the extra
      fields; building a registered class needs that class's fields. */
  function Deserialize(raw: RawEvent): (r: Result<Event, DecodeError>)
    ensures r.Success? ==> Value(r.value.eventType) == raw.eventType
    ensures r.Success? ==> r.value.eventId == raw.eventId && r.value.correlationId == raw.correlationId
  {
    match Parse(raw.eventType)
    case None => Failure(UnknownEventType(raw.eventType))
    case Some(t) =>
      var cls := RegistryGet(t);
      if cls == BaseEvent then
        Success(Event(raw.eventId, t, raw.aggregateId, raw.timestamp, raw.version,
                      raw.correlationId, raw.causationId, raw.metadata, NoPayload))
      else if ClassOf(raw.payload) == cls then
        Success(Event(raw.eventId, t, raw.aggregateId, raw.timestamp, raw.version,
                      raw.correlationId, raw.causationId, raw.metadata, raw.payload))
      else Failure(ValidationError(cls))
  }

  /** An event whose payload is exactly what decoding its type yields. */
  ghost predicate WellTyped(e: Event) {
    ClassOf(e.payload) == RegistryGet(e.eventType)
  }

  /** A type string outside the enumeration makes decoding fail. */
  lemma UnknownTypeFails(raw: RawEvent)
    requires forall t :: Value(t) != raw.eventType
    ensures Deserialize(raw) == Failure(UnknownEventType(raw.eventType))
  {
    ParseAcceptsOnlyValues(raw.eventType);
  }

  /** Decoding always yields a well-typed event. */
  lemma DecodedIsWellTyped(raw: RawEvent)
    requires Deserialize(raw).Success?
    ensures WellTyped(Deserialize(raw).value)
  {
  }

  /** Round trip through the stored form: an event comes back unchanged
      exactly when it is well typed. */
  lemma RoundTrip(e: Event)
    ensures Deserialize(Serialize(e)) == Success(e) <==> WellTyped(e)
  {
    ParseValue(e.eventType);
  }

  /** An event built from one of the classes the core constructs decodes to
      itself when its type is registered, and to a bare `BaseEvent` (payload
      dropped) when it is not — the case of notification events. */
  lemma ClassEventRoundTrip(e: Event)
    requires e.payload != NoPayload
    requires Some(e.eventType) == DefaultEventType(ClassOf(e.payload))
    ensures e.eventType in EventRegistry ==> Deserialize(Serialize(e)) == Success(e)
    ensures e.eventType !in EventRegistry ==> Deserialize(Serialize(e)) == Success(e.(payload := NoPayload))
  {
    ParseValue(e.eventType);
  }

  const DefaultCurrency: string := "USD"
}
