/** The shipping service: scheduling one shipment per confirmed order and
    announcing it with `shipping.scheduled`. */
module ShippingService {
  import opened Common
  import opened Events
  import opened MessageBroker
  import opened Outbox

  datatype ShipmentStatus = Scheduled | Dispatched | InTransit | Delivered | ShipmentFailed

  function ShipmentStatusValue(s: ShipmentStatus): string {
    match s
    case Scheduled => "scheduled"
    case Dispatched => "dispatched"
    case InTransit => "in_transit"
    case Delivered => "delivered"
    case ShipmentFailed => "failed"
  }

  datatype Shipment = Shipment(
    id: Uuid,
    orderId: Uuid,
    correlationId: Uuid,
    status: ShipmentStatus,
    trackingNumber: Option<string>,
    shippingAddress: Address,
    estimatedDelivery: Option<Timestamp>,
    createdAt: Timestamp,
    dispatchedAt: Option<Timestamp>,
    deliveredAt: Option<Timestamp>)

  /** Delivery is estimated four days out. */
  const DeliveryDays: int := 4

  const AddressKey: string := "shipping_address"

  // ---------------------------------------------------------------------
  // Tracking numbers

  const LowerHexDigits: string := "0123456789abcdef"
  const UpperHexDigits: string := "0123456789ABCDEF"

  /** `uuid4().hex`: 32 lower-case hexadecimal digits. */
  predicate IsUuidHex(hex: string) {
    |hex| == 32 && forall k :: 0 <= k < |hex| ==> hex[k] in LowerHexDigits
  }

  /** `str.upper()` on one hexadecimal digit. */
  function UpperHex(c: char): (u: char)
    requires c in LowerHexDigits
    ensures u in UpperHexDigits
    ensures '0' <= c <= '9' ==> u == c
  {
    if 'a' <= c <= 'f' then (c as int - 'a' as int + 'A' as int) as char else c
  }

  /** Upper-casing loses no digit. */
  lemma UpperHexInjective(c: char, d: char)
    requires c in LowerHexDigits && d in LowerHexDigits && UpperHex(c) == UpperHex(d)
    ensures c == d
  {
  }

  function Upper(s: string): (r: string)
    requires forall k :: 0 <= k < |s| ==> s[k] in LowerHexDigits
    ensures |r| == |s| && forall k :: 0 <= k < |s| ==> r[k] == UpperHex(s[k])
  {
    seq(|s|, k requires 0 <= k < |s| => UpperHex(s[k]))
  }

  /** `f"TRK{uuid4().hex[:12].upper()}"`. */
  function TrackingNumber(hex: string): (t: string)
    requires IsUuidHex(hex)
    ensures |t| == 15 && t[..3] == "TRK"
    ensures forall k :: 3 <= k < 15 ==> t[k] in UpperHexDigits
  {
    "TRK" + Upper(hex[..12])
  }

  /** The tracking number keeps the first twelve digits of the uuid: two
      numbers are equal exactly when those digits are. */
  lemma TrackingNumberInjective(a: string, b: string)
    requires IsUuidHex(a) && IsUuidHex(b)
    ensures TrackingNumber(a) == TrackingNumber(b) <==> a[..12] == b[..12]
  {
    if TrackingNumber(a) == TrackingNumber(b) {
      forall k | 0 <= k < 12 ensures a[k] == b[k] {
        assert TrackingNumber(a)[k + 3] == UpperHex(a[k]);
        assert TrackingNumber(b)[k + 3] == UpperHex(b[k]);
        UpperHexInjective(a[k], b[k]);
      }
    }
  }

  // ---------------------------------------------------------------------
  // The shipments table

  /** `WHERE order_id = ...`. */
  function FindShipment(shipments: seq<Shipment>, orderId: Uuid): (r: Option<nat>)
    ensures r.Some? ==> r.value < |shipments| && shipments[r.value].orderId == orderId
    ensures r.None? <==> forall k :: 0 <= k < |shipments| ==> shipments[k].orderId != orderId
  {
    FindFirst(shipments, (x: Shipment) => x.orderId == orderId)
  }

  /** Order ids, shipment ids and tracking numbers are unique. */
  ghost predicate ValidShipments(shipments: seq<Shipment>) {
    forall i, j :: 0 <= i < j < |shipments| ==>
      shipments[i].orderId != shipments[j].orderId && shipments[i].id != shipments[j].id &&
      shipments[i].trackingNumber != shipments[j].trackingNumber
  }

  /** The address a confirmation carries: metadata `shipping_address`, an
      empty object when absent, and nothing when it is not an object (the
      event then fails validation and the handler raises). */
  function AddressOf(metadata: map<string, MetaValue>): (r: Option<Address>)
    ensures AddressKey !in metadata ==> r == Some(map[])
    ensures AddressKey in metadata && metadata[AddressKey].MetaAddress? ==> r == Some(metadata[AddressKey].address)
    ensures r.None? <==> AddressKey in metadata && !metadata[AddressKey].MetaAddress?
  {
    if AddressKey !in metadata then Some(map[])
    else match metadata[AddressKey]
      case MetaAddress(a) => Some(a)
      case _ => None
  }

  /** Confirmations carry no metadata when the orchestrator emits them, so
      every shipment it causes has the empty address. */
  lemma NoMetadataNoAddress(e: Event)
    requires e.metadata == map[]
    ensures AddressOf(e.metadata) == Some(map[])
  {
  }

  datatype ShippingStep = ShippingStep(shipments: seq<Shipment>, events: seq<Event>)

  /** `handle_order_confirmed`: `None` is the handler raising on an address
      that is not an object. */
  function OnOrderConfirmed(shipments: seq<Shipment>, e: Event, shipmentId: Uuid, hex: string,
                            eventId: Uuid, now: Timestamp): (r: Option<ShippingStep>)
    requires e.payload.OrderConfirmedData? && IsUuidHex(hex)
    // A known order: nothing changes, nothing is emitted.
    ensures FindShipment(shipments, e.payload.orderId).Some? ==> r == Some(ShippingStep(shipments, []))
    ensures r.None? <==> FindShipment(shipments, e.payload.orderId).None? && AddressOf(e.metadata).None?
    // A new order: one scheduled shipment and one announcement of it.
    ensures FindShipment(shipments, e.payload.orderId).None? && r.Some? ==>
      var address := AddressOf(e.metadata).value;
      var estimated := now + DeliveryDays * SecondsPerDay;
      r.value.shipments == shipments + [Shipment(shipmentId, e.payload.orderId, e.correlationId, Scheduled,
                                                 Some(TrackingNumber(hex)), address, Some(estimated),
                                                 now, None, None)] &&
      r.value.events == [FollowUp(e, eventId, e.payload.orderId, now,
                                  ShippingScheduledData(e.payload.orderId, shipmentId, estimated, address))]
  {
    if FindShipment(shipments, e.payload.orderId).Some? then Some(ShippingStep(shipments, []))
    else match AddressOf(e.metadata)
      case None => None
      case Some(address) =>
        var estimated := now + DeliveryDays * SecondsPerDay;
        var shipment := Shipment(shipmentId, e.payload.orderId, e.correlationId, Scheduled,
                                 Some(TrackingNumber(hex)), address, Some(estimated), now, None, None);
        Some(ShippingStep(shipments + [shipment],
                          [FollowUp(e, eventId, e.payload.orderId, now,
                                    ShippingScheduledData(e.payload.orderId, shipmentId, estimated, address))]))
  }

  /** The announcement of a new shipment is a `shipping.scheduled` on the
      order, caused by the confirmation and in its saga. */
  lemma ScheduledEventFields(shipments: seq<Shipment>, e: Event, shipmentId: Uuid, hex: string,
                             eventId: Uuid, now: Timestamp)
    requires e.payload.OrderConfirmedData? && IsUuidHex(hex)
    requires OnOrderConfirmed(shipments, e, shipmentId, hex, eventId, now).Some?
    requires FindShipment(shipments, e.payload.orderId).None?
    ensures var s := OnOrderConfirmed(shipments, e, shipmentId, hex, eventId, now).value;
      |s.events| == 1 && |s.shipments| == |shipments| + 1 && s.shipments[..|shipments|] == shipments &&
      s.events[0].eventType == ShippingScheduled && s.events[0].payload.shippingId == shipmentId &&
      s.events[0].payload.shippingId == s.shipments[|shipments|].id &&
      s.events[0].aggregateId == e.payload.orderId && s.events[0].causationId == Some(e.eventId) &&
      s.events[0].correlationId == e.correlationId &&
      s.shipments[|shipments|].status == Scheduled &&
      s.events[0].payload.estimatedDelivery == now + 4 * SecondsPerDay
  {
    var s := OnOrderConfirmed(shipments, e, shipmentId, hex, eventId, now).value;
    assert s.shipments[..|shipments|] == shipments;
  }

  /** A fresh shipment id and tracking number keep the table valid: still
      at most one shipment per order. */
  lemma ConfirmedKeepsValid(shipments: seq<Shipment>, e: Event, shipmentId: Uuid, hex: string,
                            eventId: Uuid, now: Timestamp)
    requires ValidShipments(shipments) && e.payload.OrderConfirmedData? && IsUuidHex(hex)
    requires forall k :: 0 <= k < |shipments| ==>
      shipments[k].id != shipmentId && shipments[k].trackingNumber != Some(TrackingNumber(hex))
    requires OnOrderConfirmed(shipments, e, shipmentId, hex, eventId, now).Some?
    ensures ValidShipments(OnOrderConfirmed(shipments, e, shipmentId, hex, eventId, now).value.shipments)
  {
  }

  /** A redelivered confirmation schedules nothing more. */
  lemma ConfirmTwice(shipments: seq<Shipment>, e: Event, shipmentId: Uuid, hex: string, eventId: Uuid,
                     now: Timestamp, shipmentId2: Uuid, hex2: string, eventId2: Uuid, later: Timestamp)
    requires e.payload.OrderConfirmedData? && IsUuidHex(hex) && IsUuidHex(hex2)
    requires OnOrderConfirmed(shipments, e, shipmentId, hex, eventId, now).Some?
    ensures var s := OnOrderConfirmed(shipments, e, shipmentId, hex, eventId, now).value;
      OnOrderConfirmed(s.shipments, e, shipmentId2, hex2, eventId2, later) == Some(ShippingStep(s.shipments, []))
  {
    var s := OnOrderConfirmed(shipments, e, shipmentId, hex, eventId, now).value;
    if FindShipment(shipments, e.payload.orderId).None? {
      assert s.shipments[|shipments|].orderId == e.payload.orderId;
    }
  }

  /** The body of `GET /shipments/{order_id}`. */
  datatype ShipmentResponse = ShipmentResponse(
    id: Uuid, orderId: Uuid, status: string, trackingNumber: Option<string>,
    estimatedDelivery: Option<Timestamp>, createdAt: Timestamp)

  /** `get_shipment`: the order's shipment, or `None` for a 404. */
  function GetShipment(shipments: seq<Shipment>, orderId: Uuid): (r: Option<ShipmentResponse>)
    ensures r.None? <==> forall k :: 0 <= k < |shipments| ==> shipments[k].orderId != orderId
    ensures r.Some? ==>
      exists k :: 0 <= k < |shipments| && shipments[k].orderId == orderId &&
        r.value == ShipmentResponse(shipments[k].id, orderId, ShipmentStatusValue(shipments[k].status),
                                    shipments[k].trackingNumber, shipments[k].estimatedDelivery,
                                    shipments[k].createdAt)
  {
    match FindShipment(shipments, orderId)
    case None => None
    case Some(i) =>
      var s := shipments[i];
      Some(ShipmentResponse(s.id, s.orderId, ShipmentStatusValue(s.status), s.trackingNumber,
                            s.estimatedDelivery, s.createdAt))
  }

  /** After a confirmation is handled, the order's shipment can be read. */
  lemma ScheduledIsVisible(shipments: seq<Shipment>, e: Event, shipmentId: Uuid, hex: string,
                           eventId: Uuid, now: Timestamp)
    requires e.payload.OrderConfirmedData? && IsUuidHex(hex)
    requires OnOrderConfirmed(shipments, e, shipmentId, hex, eventId, now).Some?
    ensures GetShipment(OnOrderConfirmed(shipments, e, shipmentId, hex, eventId, now).value.shipments,
                        e.payload.orderId).Some?
  {
    var s := OnOrderConfirmed(shipments, e, shipmentId, hex, eventId, now).value;
    if FindShipment(shipments, e.payload.orderId).None? {
      assert s.shipments[|shipments|].orderId == e.payload.orderId;
    }
  }

  /** `subscribe_to_events`: one queue for order confirmations. */
  const Subscriptions: seq<Subscription> :=
    [Subscription("shipping_service_order_confirmed", ForEvent(OrderConfirmed), DefaultMaxRetries)]

  // ---------------------------------------------------------------------
  // The service over its table

  class Shipping {
    var shipments: seq<Shipment>
    const outbox: OutboxStore

    ghost predicate Valid()
      reads this, outbox
    {
      outbox.Valid() && ValidShipments(shipments)
    }

    constructor (store: OutboxStore)
      requires store.Valid()
      ensures Valid() && shipments == [] && outbox == store
    {
      shipments := [];
      outbox := store;
    }

    /** `handle_order_confirmed`; `Fail` when the handler raises, after
        which nothing is stored. The shipment id and the tracking uuid are
        fresh uuid4 values. */
    method HandleOrderConfirmed(e: Event, shipmentId: Uuid, hex: string, eventId: Uuid, now: Timestamp)
      returns (outcome: Outcome)
      requires Valid() && e.payload.OrderConfirmedData? && IsUuidHex(hex)
      requires forall k :: 0 <= k < |shipments| ==>
        shipments[k].id != shipmentId && shipments[k].trackingNumber != Some(TrackingNumber(hex))
      requires eventId !in outbox.EventIds()
      modifies this`shipments, outbox
      ensures Valid()
      ensures var r := OnOrderConfirmed(old(shipments), e, shipmentId, hex, eventId, now);
        (r.None? <==> outcome.Fail?) &&
        (r.None? ==> shipments == old(shipments) && outbox.rows == old(outbox.rows)) &&
        (r.Some? ==> shipments == r.value.shipments && outbox.rows == old(outbox.rows) + NewRows(r.value.events, now))
    {
      if FindShipment(shipments, e.payload.orderId).Some? {
        assert NewRows([], now) == [];
        return Pass;
      }
      var address := AddressOf(e.metadata);
      if address.None? {
        return Fail("shipping_address is not an object");
      }
      var estimated := now + DeliveryDays * SecondsPerDay;
      var shipment := Shipment(shipmentId, e.payload.orderId, e.correlationId, Scheduled,
                               Some(TrackingNumber(hex)), address.value, Some(estimated), now, None, None);
      shipments := shipments + [shipment];
      var scheduled := FollowUp(e, eventId, e.payload.orderId, now,
                                ShippingScheduledData(e.payload.orderId, shipmentId, estimated, address.value));
      outbox.SaveEventToOutbox(scheduled, now);
      assert NewRows([scheduled], now) == [NewRow(scheduled, now)];
      outcome := Pass;
    }
  }
}
