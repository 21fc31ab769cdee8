/** The inventory service's saga handlers: reserving stock for an order
    (idempotent per order), with per-product available/reserved
    bookkeeping, and releasing a reservation as the saga's compensation. */
module InventoryService {
  import opened Common
  import opened Events
  import opened MessageBroker
  import opened Outbox

  datatype ReservationStatus = Active | Released | Expired

  /** A product's stock columns; name, description and price are not read
      by the handlers. */
  datatype Product = Product(available: int, reserved: int)

  datatype Reservation = Reservation(
    id: Uuid,
    orderId: Uuid,
    correlationId: Uuid,
    status: ReservationStatus,
    items: seq<StockItem>,
    createdAt: Timestamp,
    releasedAt: Option<Timestamp>)

  const InsufficientInventory: string := "Insufficient inventory"

  // ---------------------------------------------------------------------
  // Stock bookkeeping on values

  /** The item's shortage, if its product is missing or has fewer units
      available than requested. */
  function Shortage(products: map<Uuid, Product>, item: StockItem): (r: Option<UnavailableItem>)
    ensures r.None? <==> item.productId in products && products[item.productId].available >= item.quantity
    ensures r.Some? ==> r.value.productId == item.productId && r.value.requested == item.quantity
    ensures r.Some? ==> r.value.available == if item.productId in products then products[item.productId].available else 0
  {
    if item.productId in products && products[item.productId].available >= item.quantity then None
    else
      Some(UnavailableItem(item.productId, item.quantity,
                           if item.productId in products then products[item.productId].available else 0))
  }

  /** The unavailable items of a request, in request order, each judged
      against the stock as it was before any update. */
  function Unavailable(products: map<Uuid, Product>, items: seq<StockItem>): (r: seq<UnavailableItem>)
    ensures |r| <= |items|
    ensures r == [] <==> forall k :: 0 <= k < |items| ==> Shortage(products, items[k]).None?
  {
    if items == [] then []
    else
      var n := |items| - 1;
      var rest := Unavailable(products, items[..n]);
      assert forall k :: 0 <= k < n ==> items[..n][k] == items[k];
      rest + match Shortage(products, items[n]) case Some(u) => [u] case None => []
  }

  /** `r` lists the shortages among the first `m` items in request order:
      its j-th entry is the shortage of item `idx[j]`, the indices increase,
      and every short item below `m` has its index among them. */
  ghost predicate ListsShortages(products: map<Uuid, Product>, items: seq<StockItem>, m: nat,
                                 r: seq<UnavailableItem>, idx: seq<nat>)
  {
    |idx| == |r| &&
    (forall j :: 0 <= j < |idx| ==>
       idx[j] < m <= |items| && Shortage(products, items[idx[j]]) == Some(r[j])) &&
    (forall j, j' :: 0 <= j < j' < |idx| ==> idx[j] < idx[j']) &&
    (forall k :: 0 <= k < m <= |items| && Shortage(products, items[k]).Some? ==> k in idx)
  }

  /** A short item at `m - 1` extends the list and its indices by one. */
  lemma ShortagesExtend(products: map<Uuid, Product>, items: seq<StockItem>, m: nat,
                        before: seq<UnavailableItem>, rest: seq<nat>, u: UnavailableItem)
    requires 0 < m <= |items|
    requires ListsShortages(products, items, m - 1, before, rest)
    requires Shortage(products, items[m - 1]) == Some(u)
    ensures ListsShortages(products, items, m, before + [u], rest + [m - 1])
  {
    var idx, after := rest + [m - 1], before + [u];
    forall j | 0 <= j < |idx|
      ensures idx[j] < m <= |items| && Shortage(products, items[idx[j]]) == Some(after[j])
    {
      if j < |rest| {
        assert idx[j] == rest[j] && after[j] == before[j];
      }
    }
    forall j, j' | 0 <= j < j' < |idx| ensures idx[j] < idx[j'] {
      assert idx[j] == rest[j] && rest[j] < m - 1;
      if j' < |rest| {
        assert idx[j'] == rest[j'];
      }
    }
    forall k | 0 <= k < m <= |items| && Shortage(products, items[k]).Some? ensures k in idx {
      if k < m - 1 {
        assert k in rest;
      } else {
        assert idx[|rest|] == k;
      }
    }
  }

  /** An item at `m - 1` that is not short leaves the list as it is. */
  lemma ShortagesSkip(products: map<Uuid, Product>, items: seq<StockItem>, m: nat,
                      before: seq<UnavailableItem>, rest: seq<nat>)
    requires 0 < m <= |items|
    requires ListsShortages(products, items, m - 1, before, rest)
    requires Shortage(products, items[m - 1]).None?
    ensures ListsShortages(products, items, m, before, rest)
  {
    forall k | 0 <= k < m <= |items| && Shortage(products, items[k]).Some? ensures k in rest {
      assert k != m - 1;
    }
  }

  lemma UnavailableStep(products: map<Uuid, Product>, items: seq<StockItem>, m: nat)
    requires 0 < m <= |items|
    ensures Unavailable(products, items[..m]) ==
      Unavailable(products, items[..m - 1]) + match Shortage(products, items[m - 1]) case Some(u) => [u] case None => []
  {
    assert items[..m][..m - 1] == items[..m - 1];
  }

  lemma {:induction false} UnavailablePrefix(products: map<Uuid, Product>, items: seq<StockItem>, m: nat)
    returns (idx: seq<nat>)
    requires m <= |items|
    ensures ListsShortages(products, items, m, Unavailable(products, items[..m]), idx)
  {
    if m == 0 {
      assert items[..m] == [];
      idx := [];
    } else {
      var rest := UnavailablePrefix(products, items, m - 1);
      var before := Unavailable(products, items[..m - 1]);
      UnavailableStep(products, items, m);
      match Shortage(products, items[m - 1])
      case Some(u) =>
        ShortagesExtend(products, items, m, before, rest, u);
        idx := rest + [m - 1];
      case None =>
        ShortagesSkip(products, items, m, before, rest);
        idx := rest;
    }
  }

  /** The list is exactly the shortages in request order: its j-th entry is
      the shortage of item `idx[j]`, the indices increase, and every short
      item has its index among them. */
  lemma UnavailableInOrder(products: map<Uuid, Product>, items: seq<StockItem>)
    returns (idx: seq<nat>)
    ensures |idx| == |Unavailable(products, items)|
    ensures forall j :: 0 <= j < |idx| ==>
      idx[j] < |items| && Shortage(products, items[idx[j]]) == Some(Unavailable(products, items)[j])
    ensures forall j, j' :: 0 <= j < j' < |idx| ==> idx[j] < idx[j']
    ensures forall k :: 0 <= k < |items| && Shortage(products, items[k]).Some? ==> k in idx
  {
    assert items[..|items|] == items;
    idx := UnavailablePrefix(products, items, |items|);
  }

  /** Every short item's shortage is listed, and everything listed is the
      shortage of some item. */
  lemma UnavailableMembers(products: map<Uuid, Product>, items: seq<StockItem>)
    ensures forall k :: 0 <= k < |items| && Shortage(products, items[k]).Some? ==>
      Shortage(products, items[k]).value in Unavailable(products, items)
    ensures forall u :: u in Unavailable(products, items) ==>
      exists k :: 0 <= k < |items| && Shortage(products, items[k]) == Some(u)
  {
    var r := Unavailable(products, items);
    var idx := UnavailableInOrder(products, items);
    forall k | 0 <= k < |items| && Shortage(products, items[k]).Some?
      ensures Shortage(products, items[k]).value in r
    {
      var j :| 0 <= j < |idx| && idx[j] == k;
    }
    forall u | u in r ensures exists k :: 0 <= k < |items| && Shortage(products, items[k]) == Some(u) {
      var j :| 0 <= j < |r| && r[j] == u;
      assert Shortage(products, items[idx[j]]) == Some(u);
    }
  }

  /** Which way an UPDATE moves units: from available to reserved, or back. */
  datatype Direction = Reserve | Release

  function Move(p: Product, quantity: int, d: Direction): Product {
    match d
    case Reserve => Product(p.available - quantity, p.reserved + quantity)
    case Release => Product(p.available + quantity, p.reserved - quantity)
  }

  /** One item's UPDATE; an unknown product is left alone, as an UPDATE
      that matches no row. */
  function AdjustOne(products: map<Uuid, Product>, item: StockItem, d: Direction): (r: map<Uuid, Product>)
    ensures r.Keys == products.Keys
  {
    if item.productId in products then
      products[item.productId := Move(products[item.productId], item.quantity, d)]
    else products
  }

  /** The per-item updates applied in request order. */
  function Adjust(products: map<Uuid, Product>, items: seq<StockItem>, d: Direction): (r: map<Uuid, Product>)
    ensures r.Keys == products.Keys
  {
    if items == [] then products
    else AdjustOne(Adjust(products, items[..|items| - 1], d), items[|items| - 1], d)
  }

  /** The units of `productId` a request asks for, over all its items. */
  function Quantity(items: seq<StockItem>, productId: Uuid): int {
    if items == [] then 0
    else
      var last := items[|items| - 1];
      Quantity(items[..|items| - 1], productId) + if last.productId == productId then last.quantity else 0
  }

  /** The net effect of the updates: each product moves the total units
      requested for it at once. */
  lemma {:induction false} AdjustEffect(products: map<Uuid, Product>, items: seq<StockItem>, d: Direction)
    ensures forall id :: id in products ==>
      Adjust(products, items, d)[id] == Move(products[id], Quantity(items, id), d)
  {
    if items != [] {
      var n := |items| - 1;
      AdjustEffect(products, items[..n], d);
      forall id | id in products
        ensures Adjust(products, items, d)[id] == Move(products[id], Quantity(items, id), d)
      {
        if items[n].productId == id {
          assert Quantity(items, id) == Quantity(items[..n], id) + items[n].quantity;
        } else {
          assert Quantity(items, id) == Quantity(items[..n], id);
        }
      }
    }
  }

  /** Reserving or releasing moves units between the two columns and
      never changes a product's `available + reserved`. */
  lemma StockConserved(products: map<Uuid, Product>, items: seq<StockItem>, d: Direction)
    ensures var after := Adjust(products, items, d);
      after.Keys == products.Keys &&
      forall id :: id in products ==>
        after[id].available + after[id].reserved == products[id].available + products[id].reserved
  {
    AdjustEffect(products, items, d);
  }

  /** Releasing the items of a reservation undoes reserving them. */
  lemma ReleaseUndoesReserve(products: map<Uuid, Product>, items: seq<StockItem>)
    ensures Adjust(Adjust(products, items, Reserve), items, Release) == products
  {
    var reserved := Adjust(products, items, Reserve);
    AdjustEffect(products, items, Reserve);
    AdjustEffect(reserved, items, Release);
  }

  /** With at most one item per product, a request that passes the check
      leaves no product with negative availability. */
  lemma NoOverdraw(products: map<Uuid, Product>, items: seq<StockItem>)
    requires forall id :: id in products ==> products[id].available >= 0
    requires forall a, b :: 0 <= a < b < |items| ==> items[a].productId != items[b].productId
    requires Unavailable(products, items) == []
    ensures forall id :: id in products ==> Adjust(products, items, Reserve)[id].available >= 0
  {
    AdjustEffect(products, items, Reserve);
    forall id | id in products ensures Quantity(items, id) <= products[id].available {
      QuantityOfDistinct(products, items, id);
    }
  }

  lemma {:induction false} QuantityOfDistinct(products: map<Uuid, Product>, items: seq<StockItem>, id: Uuid)
    requires id in products && products[id].available >= 0
    requires forall a, b :: 0 <= a < b < |items| ==> items[a].productId != items[b].productId
    requires forall k :: 0 <= k < |items| ==> Shortage(products, items[k]).None?
    ensures Quantity(items, id) <= products[id].available
    ensures (forall k :: 0 <= k < |items| ==> items[k].productId != id) ==> Quantity(items, id) == 0
  {
    if items != [] {
      var n := |items| - 1;
      QuantityOfDistinct(products, items[..n], id);
      if items[n].productId == id {
        assert forall k :: 0 <= k < n ==> items[..n][k].productId != id;
      }
    }
  }

  /** The check judges each item against the stock before any update, so
      two items of the same product pass when each alone fits: five units
      available and two items of three each leave -1 available. */
  lemma DuplicateItemsOverdraw(productId: Uuid)
    ensures var products := map[productId := Product(5, 0)];
      var items := [StockItem(productId, 3), StockItem(productId, 3)];
      Unavailable(products, items) == [] && Adjust(products, items, Reserve)[productId] == Product(-1, 6)
  {
    var products := map[productId := Product(5, 0)];
    var items := [StockItem(productId, 3), StockItem(productId, 3)];
    assert items[..1] == [StockItem(productId, 3)];
    assert items[..1][..0] == [];
    assert Adjust(products, items[..1], Reserve) == map[productId := Product(2, 3)];
  }

  // ---------------------------------------------------------------------
  // Reservation lookups

  /** `WHERE order_id = ...`: the order's reservation. */
  function FindByOrder(rs: seq<Reservation>, orderId: Uuid): (r: Option<nat>)
    ensures r.Some? ==> r.value < |rs| && rs[r.value].orderId == orderId
    ensures r.None? <==> forall k :: 0 <= k < |rs| ==> rs[k].orderId != orderId
  {
    FindFirst(rs, (x: Reservation) => x.orderId == orderId)
  }

  /** `WHERE id = ... AND order_id = ...`. */
  function FindReservation(rs: seq<Reservation>, id: Uuid, orderId: Uuid): (r: Option<nat>)
    ensures r.Some? ==> r.value < |rs| && rs[r.value].id == id && rs[r.value].orderId == orderId
    ensures r.None? <==> forall k :: 0 <= k < |rs| ==> rs[k].id != id || rs[k].orderId != orderId
  {
    FindFirst(rs, (x: Reservation) => x.id == id && x.orderId == orderId)
  }

  /** Reservation ids and order ids are unique (primary key, unique column). */
  ghost predicate UniqueReservations(rs: seq<Reservation>) {
    forall i, j :: 0 <= i < j < |rs| ==> rs[i].id != rs[j].id && rs[i].orderId != rs[j].orderId
  }

  // ---------------------------------------------------------------------
  // The handlers on values

  /** What a handler leaves in the tables, and the events it saves. */
  datatype InventoryStep = InventoryStep(products: map<Uuid, Product>, reservations: seq<Reservation>,
                                         events: seq<Event>)

  /** `handle_reserve_requested`. */
  function OnReserveRequested(products: map<Uuid, Product>, rs: seq<Reservation>, e: Event,
                              reservationId: Uuid, eventId: Uuid, now: Timestamp): (s: InventoryStep)
    requires e.payload.InventoryReserveRequestedData?
    ensures |s.events| == 1 && s.events[0].eventId == eventId
    ensures s.events[0].correlationId == e.correlationId && s.events[0].causationId == Some(e.eventId)
    ensures s.events[0].aggregateId == e.aggregateId
    ensures s.events[0].payload.InventoryReservedData? || s.events[0].payload.InventoryReserveFailedData?
    // Already reserved: nothing changes and the stored reservation is announced again.
    ensures FindByOrder(rs, e.payload.orderId).Some? ==>
      var r := rs[FindByOrder(rs, e.payload.orderId).value];
      s.products == products && s.reservations == rs &&
      s.events[0].payload == InventoryReservedData(e.payload.orderId, r.id, r.items)
    // Something is short: nothing changes and every shortage is reported.
    ensures FindByOrder(rs, e.payload.orderId).None? && Unavailable(products, e.payload.stockItems) != [] ==>
      s.products == products && s.reservations == rs &&
      s.events[0].payload == InventoryReserveFailedData(e.payload.orderId, InsufficientInventory,
                                                         Unavailable(products, e.payload.stockItems))
    // Otherwise: the stock moves and one active reservation holds the items.
    ensures FindByOrder(rs, e.payload.orderId).None? && Unavailable(products, e.payload.stockItems) == [] ==>
      s.products == Adjust(products, e.payload.stockItems, Reserve) &&
      s.reservations == rs + [Reservation(reservationId, e.payload.orderId, e.correlationId, Active,
                                          e.payload.stockItems, now, None)] &&
      s.events[0].payload == InventoryReservedData(e.payload.orderId, reservationId, e.payload.stockItems)
  {
    var orderId := e.payload.orderId;
    var items := e.payload.stockItems;
    match FindByOrder(rs, orderId)
    case Some(i) =>
      InventoryStep(products, rs,
                    [FollowUp(e, eventId, e.aggregateId, now, InventoryReservedData(orderId, rs[i].id, rs[i].items))])
    case None =>
      var unavailable := Unavailable(products, items);
      if unavailable != [] then
        InventoryStep(products, rs,
                      [FollowUp(e, eventId, e.aggregateId, now,
                                InventoryReserveFailedData(orderId, InsufficientInventory, unavailable))])
      else
        InventoryStep(Adjust(products, items, Reserve),
                      rs + [Reservation(reservationId, orderId, e.correlationId, Active, items, now, None)],
                      [FollowUp(e, eventId, e.aggregateId, now, InventoryReservedData(orderId, reservationId, items))])
  }

  /** `handle_release_inventory`: an unknown or already released
      reservation changes nothing; otherwise its items return to stock and
      it is marked released. No event is emitted. */
  function OnRelease(products: map<Uuid, Product>, rs: seq<Reservation>, e: Event, now: Timestamp): (s: InventoryStep)
    requires e.payload.InventoryReleasedData?
    ensures s.events == [] && |s.reservations| == |rs|
    ensures var found := FindReservation(rs, e.payload.reservationId, e.payload.orderId);
      (found.None? || rs[found.value].status == Released) ==> s.products == products && s.reservations == rs
    ensures var found := FindReservation(rs, e.payload.reservationId, e.payload.orderId);
      found.Some? && rs[found.value].status != Released ==>
        s.products == Adjust(products, rs[found.value].items, Release) &&
        s.reservations == rs[found.value := rs[found.value].(status := Released, releasedAt := Some(now))]
  {
    match FindReservation(rs, e.payload.reservationId, e.payload.orderId)
    case None => InventoryStep(products, rs, [])
    case Some(i) =>
      if rs[i].status == Released then InventoryStep(products, rs, [])
      else InventoryStep(Adjust(products, rs[i].items, Release),
                         rs[i := rs[i].(status := Released, releasedAt := Some(now))], [])
  }

  /** A successful reservation released by the saga's compensation
      restores every product's stock and leaves the reservation released. */
  lemma ReserveThenRelease(products: map<Uuid, Product>, rs: seq<Reservation>, request: Event, release: Event,
                           reservationId: Uuid, eventId: Uuid, now: Timestamp, later: Timestamp)
    requires UniqueReservations(rs)
    requires forall k :: 0 <= k < |rs| ==> rs[k].id != reservationId
    requires request.payload.InventoryReserveRequestedData?
    requires FindByOrder(rs, request.payload.orderId).None?
    requires Unavailable(products, request.payload.stockItems) == []
    requires release.payload == InventoryReleasedData(request.payload.orderId, reservationId)
    ensures var s1 := OnReserveRequested(products, rs, request, reservationId, eventId, now);
      var s2 := OnRelease(s1.products, s1.reservations, release, later);
      s2.products == products && s2.reservations[|rs|].status == Released && s2.reservations[..|rs|] == rs
  {
    var s1 := OnReserveRequested(products, rs, request, reservationId, eventId, now);
    assert FindReservation(s1.reservations, reservationId, request.payload.orderId) == Some(|rs|) by {
      FindLast(rs, s1.reservations[|rs|]);
    }
    ReleaseUndoesReserve(products, request.payload.stockItems);
  }

  lemma FindLast(rs: seq<Reservation>, r: Reservation)
    requires forall k :: 0 <= k < |rs| ==> rs[k].id != r.id
    ensures FindReservation(rs + [r], r.id, r.orderId) == Some(|rs|)
  {
    assert (rs + [r])[|rs|] == r;
  }

  /** Releasing twice is releasing once. */
  lemma ReleaseTwice(products: map<Uuid, Product>, rs: seq<Reservation>, e: Event, now: Timestamp, later: Timestamp)
    requires UniqueReservations(rs) && e.payload.InventoryReleasedData?
    ensures var s1 := OnRelease(products, rs, e, now);
      OnRelease(s1.products, s1.reservations, e, later) == s1
  {
    var s1 := OnRelease(products, rs, e, now);
    var found := FindReservation(rs, e.payload.reservationId, e.payload.orderId);
    if found.Some? && rs[found.value].status != Released {
      var i := found.value;
      assert forall k :: 0 <= k < |rs| && k != i ==> s1.reservations[k] == rs[k];
      assert FindReservation(s1.reservations, e.payload.reservationId, e.payload.orderId) == Some(i) by {
        FindUnique(s1.reservations, i, e.payload.reservationId, e.payload.orderId);
      }
    }
  }

  lemma FindUnique(rs: seq<Reservation>, i: nat, id: Uuid, orderId: Uuid)
    requires i < |rs| && rs[i].id == id && rs[i].orderId == orderId
    requires forall k :: 0 <= k < |rs| && k != i ==> rs[k].id != id
    ensures FindReservation(rs, id, orderId) == Some(i)
  {
  }

  /** `subscribe_to_events`: reservation requests and releases, each on its
      own queue. */
  const Subscriptions: seq<Subscription> := [
    Subscription("inventory_service_reserve", ForEvent(InventoryReserveRequested), DefaultMaxRetries),
    Subscription("inventory_service_release", ForEvent(InventoryReleased), DefaultMaxRetries)
  ]

  // ---------------------------------------------------------------------
  // The service over its tables

  class Inventory {
    var products: map<Uuid, Product>
    var reservations: seq<Reservation>
    const outbox: OutboxStore

    ghost predicate Valid()
      reads this, outbox
    {
      outbox.Valid() && UniqueReservations(reservations)
    }

    constructor (stock: map<Uuid, Product>, store: OutboxStore)
      requires store.Valid()
      ensures Valid() && products == stock && reservations == [] && outbox == store
    {
      products := stock;
      reservations := [];
      outbox := store;
    }

    /** The availability loop: collect each short item against the
        current stock. Nothing changes. */
    method CheckAvailability(items: seq<StockItem>) returns (unavailable: seq<UnavailableItem>)
      ensures unavailable == Unavailable(products, items)
    {
      unavailable := [];
      for i := 0 to |items|
        invariant unavailable == Unavailable(products, items[..i])
      {
        UnavailableStep(products, items, i + 1);
        var short := Shortage(products, items[i]);
        if short.Some? {
          unavailable := unavailable + [short.value];
        }
      }
      assert items[..|items|] == items;
    }

    /** The update loop: one UPDATE per item, moving its quantity
        between available and reserved. */
    method UpdateStock(items: seq<StockItem>, d: Direction)
      modifies this`products
      ensures products == Adjust(old(products), items, d)
    {
      for i := 0 to |items|
        invariant products == Adjust(old(products), items[..i], d)
      {
        assert items[..i + 1][..i] == items[..i];
        var id := items[i].productId;
        if id in products {
          products := products[id := Move(products[id], items[i].quantity, d)];
        }
      }
      assert items[..|items|] == items;
    }

    /** `handle_reserve_requested`. */
    method HandleReserveRequested(e: Event, reservationId: Uuid, eventId: Uuid, now: Timestamp)
      requires Valid() && e.payload.InventoryReserveRequestedData?
      requires forall k :: 0 <= k < |reservations| ==> reservations[k].id != reservationId
      requires eventId !in outbox.EventIds()
      modifies this, outbox
      ensures Valid()
      ensures var s := OnReserveRequested(old(products), old(reservations), e, reservationId, eventId, now);
        products == s.products && reservations == s.reservations &&
        outbox.rows == old(outbox.rows) + NewRows(s.events, now)
    {
      var orderId := e.payload.orderId;
      var existing := FindByOrder(reservations, orderId);
      if existing.Some? {
        var r := reservations[existing.value];
        var success := FollowUp(e, eventId, e.aggregateId, now, InventoryReservedData(orderId, r.id, r.items));
        assert OnReserveRequested(old(products), old(reservations), e, reservationId, eventId, now) ==
          InventoryStep(products, reservations, [success]);
        outbox.SaveEventToOutbox(success, now);
        assert NewRows([success], now) == [NewRow(success, now)];
        return;
      }

      var unavailable := CheckAvailability(e.payload.stockItems);
      if unavailable != [] {
        var failure := FollowUp(e, eventId, e.aggregateId, now,
                                InventoryReserveFailedData(orderId, InsufficientInventory, unavailable));
        assert OnReserveRequested(old(products), old(reservations), e, reservationId, eventId, now) ==
          InventoryStep(products, reservations, [failure]);
        outbox.SaveEventToOutbox(failure, now);
        assert NewRows([failure], now) == [NewRow(failure, now)];
        return;
      }

      UpdateStock(e.payload.stockItems, Reserve);
      var reservation := Reservation(reservationId, orderId, e.correlationId, Active, e.payload.stockItems, now, None);
      reservations := reservations + [reservation];
      var success := FollowUp(e, eventId, e.aggregateId, now,
                              InventoryReservedData(orderId, reservationId, e.payload.stockItems));
      assert OnReserveRequested(old(products), old(reservations), e, reservationId, eventId, now) ==
        InventoryStep(products, reservations, [success]);
      outbox.SaveEventToOutbox(success, now);
      assert NewRows([success], now) == [NewRow(success, now)];
    }

    /** `handle_release_inventory`. */
    method HandleReleaseInventory(e: Event, now: Timestamp)
      requires Valid() && e.payload.InventoryReleasedData?
      modifies this
      ensures Valid()
      ensures var s := OnRelease(old(products), old(reservations), e, now);
        products == s.products && reservations == s.reservations
    {
      var found := FindReservation(reservations, e.payload.reservationId, e.payload.orderId);
      if found.None? {
        return;
      }
      var i := found.value;
      if reservations[i].status == Released {
        return;
      }
      UpdateStock(reservations[i].items, Release);
      reservations := reservations[i := reservations[i].(status := Released, releasedAt := Some(now))];
    }
  }
}
