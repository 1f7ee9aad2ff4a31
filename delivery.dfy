/** The delivery partner handlers of backend/controllers/deliveryController.js: going
    online or offline, the list of orders open for pickup, accepting an order, the list of
    the partner's active deliveries and the partner's status updates. */
module Delivery {
  import opened Common
  import opened Tables
  import Listing

  // ---------------------------------------------------------------- availability

  /** The partner row after NOT is_available. */
  function Toggled(p: Partner, now: int): (q: Partner)
    ensures q.isAvailable == !p.isAvailable && q.updatedAt == now
    ensures q.(isAvailable := p.isAvailable, updatedAt := p.updatedAt) == p
  {
    p.(isAvailable := !p.isAvailable, updatedAt := now)
  }

  /** Toggling twice restores the row, apart from the time of the last update. */
  lemma ToggleTwice(p: Partner, t1: int, t2: int)
    ensures Toggled(Toggled(p, t1), t2) == p.(updatedAt := t2)
  {
  }

  /** PATCH /delivery/toggle-availability. With no row for the caller the handler fails on the
      missing result row (500) and nothing changes. The answer is the new availability. */
  method ToggleAvailability(db: Db, partnerId: int, now: int) returns (r: Result<bool>)
    modifies db`partners
    ensures r.Ok? <==> partnerId in old(db.partners)
    ensures r.Err? ==> r.error == ServerError && db.partners == old(db.partners)
    ensures r.Ok? ==>
      && db.partners == old(db.partners)[partnerId := Toggled(old(db.partners)[partnerId], now)]
      && r.value == !old(db.partners)[partnerId].isAvailable
  {
    if partnerId !in db.partners {
      return Err(ServerError);
    }
    var p := Toggled(db.partners[partnerId], now);
    db.partners := db.partners[partnerId := p];
    r := Ok(p.isAvailable);
  }

  // ---------------------------------------------------------------- listings

  /** ORDER BY created_at ASC. */
  predicate OlderFirst(a: (int, Order), b: (int, Order))
  {
    a.1.createdAt <= b.1.createdAt
  }

  /** ORDER BY created_at DESC. */
  predicate NewerFirst(a: (int, Order), b: (int, Order))
  {
    a.1.createdAt >= b.1.createdAt
  }

  lemma CreatedAtOrders()
    ensures Listing.TotalPreorder(OlderFirst)
    ensures Listing.TotalPreorder(NewerFirst)
  {
  }

  /** An order a partner may pick up: ready, and unassigned or assigned to that partner. */
  predicate OpenFor(partnerId: int, o: Order)
  {
    o.status == Ready && (o.deliveryPartnerId.None? || o.deliveryPartnerId == Some(partnerId))
  }

  /** The filter of the pickup list, as a row predicate. */
  function OpenTo(partnerId: int): ((int, Order)) -> bool
  {
    (e: (int, Order)) => OpenFor(partnerId, e.1)
  }

  const PickupPageSize: nat := 20

  /** GET /delivery/available-orders: nothing for an offline partner; otherwise the orders
      open to the partner, oldest first, at most 20. A caller with no partner row makes the
      handler fail (500). */
  function AvailableOrders(orders: map<int, Order>, partners: map<int, Partner>, partnerId: int): (r: Result<seq<(int, Order)>>)
    ensures r.Err? <==> partnerId !in partners
    ensures r.Err? ==> r.error == ServerError
    ensures r.Ok? && !partners[partnerId].isAvailable ==> r.value == []
  {
    if partnerId !in partners then Err(ServerError)
    else if !partners[partnerId].isAvailable then Ok([])
    else
      CreatedAtOrders();
      var open := Listing.Filter(Listing.Entries(orders), OpenTo(partnerId));
      Ok(Listing.Page(Listing.Sort(open, OlderFirst), 0, PickupPageSize))
  }

  /** For an online partner the pickup list holds only open orders of the store, oldest
      first, at most 20. */
  lemma AvailableOrdersSound(orders: map<int, Order>, partners: map<int, Partner>, partnerId: int)
    requires partnerId in partners && partners[partnerId].isAvailable
    ensures var r := AvailableOrders(orders, partners, partnerId).value;
      && |r| <= PickupPageSize
      && Listing.SortedBy(r, OlderFirst)
      && (forall e :: e in r ==> e.0 in orders && e.1 == orders[e.0] && OpenFor(partnerId, e.1))
  {
    CreatedAtOrders();
    var es := Listing.Entries(orders);
    var sorted := Listing.Sort(Listing.Filter(es, OpenTo(partnerId)), OlderFirst);
    var r := Listing.Page(sorted, 0, PickupPageSize);
    assert r == AvailableOrders(orders, partners, partnerId).value;
    Listing.SortedFilter(es, OpenTo(partnerId), OlderFirst);
    Listing.TopK(sorted, OlderFirst, PickupPageSize);
    forall e | e in r ensures e.0 in orders && e.1 == orders[e.0] && OpenFor(partnerId, e.1) {
      assert e in sorted;
      assert e in es && OpenTo(partnerId)(e);
      Listing.InEntries(orders, e);
    }
  }

  /** An open order is left off an online partner's pickup list only when the list is full
      with 20 orders none of which is newer than it. */
  lemma AvailableOrdersComplete(orders: map<int, Order>, partners: map<int, Partner>, partnerId: int, id: int)
    requires partnerId in partners && partners[partnerId].isAvailable
    requires id in orders && OpenFor(partnerId, orders[id])
    requires (id, orders[id]) !in AvailableOrders(orders, partners, partnerId).value
    ensures |AvailableOrders(orders, partners, partnerId).value| == PickupPageSize
    ensures forall e :: e in AvailableOrders(orders, partners, partnerId).value ==> e.1.createdAt <= orders[id].createdAt
  {
    CreatedAtOrders();
    var es := Listing.Entries(orders);
    var sorted := Listing.Sort(Listing.Filter(es, OpenTo(partnerId)), OlderFirst);
    var r := Listing.Page(sorted, 0, PickupPageSize);
    assert r == AvailableOrders(orders, partners, partnerId).value;
    Listing.SortedFilter(es, OpenTo(partnerId), OlderFirst);
    Listing.TopK(sorted, OlderFirst, PickupPageSize);
    var x := (id, orders[id]);
    Listing.InEntries(orders, x);
    assert OpenTo(partnerId)(x);
    assert x in sorted;
    assert forall e :: e in r ==> OlderFirst(e, x);
  }

  /** Orders the partner is carrying. */
  predicate Carrying(partnerId: int, o: Order)
  {
    o.deliveryPartnerId == Some(partnerId) && (o.status == PickedUp || o.status == InTransit)
  }

  /** The filter of the active-deliveries list, as a row predicate. */
  function CarriedBy(partnerId: int): ((int, Order)) -> bool
  {
    (e: (int, Order)) => Carrying(partnerId, e.1)
  }

  /** GET /delivery/my-deliveries: the caller's picked up or in-transit orders, newest first. */
  function MyDeliveries(orders: map<int, Order>, partnerId: int): seq<(int, Order)>
  {
    CreatedAtOrders();
    Listing.Sort(Listing.Filter(Listing.Entries(orders), CarriedBy(partnerId)), NewerFirst)
  }

  /** The active-deliveries list holds every order the partner is carrying, each once, and
      nothing else, newest first. */
  lemma MyDeliveriesExact(orders: map<int, Order>, partnerId: int)
    ensures var r := MyDeliveries(orders, partnerId);
      && Listing.SortedBy(r, NewerFirst)
      && (forall e :: e in r <==> e.0 in orders && e.1 == orders[e.0] && Carrying(partnerId, e.1))
      && (forall e :: multiset(r)[e] <= 1)
  {
    CreatedAtOrders();
    var es := Listing.Entries(orders);
    Listing.SortedFilter(es, CarriedBy(partnerId), NewerFirst);
    forall e ensures e in es <==> e.0 in orders && e.1 == orders[e.0] {
      Listing.InEntries(orders, e);
    }
    forall e ensures multiset(MyDeliveries(orders, partnerId))[e] <= 1 {
      Listing.EntriesOnce(orders, e);
    }
  }

  // ---------------------------------------------------------------- accepting and delivering

  /** The order is assigned to some partner other than the caller (a truthy other id). */
  predicate AssignedElsewhere(o: Order, partnerId: int)
  {
    o.deliveryPartnerId.Some? && o.deliveryPartnerId.value != 0 && o.deliveryPartnerId.value != partnerId
  }

  /** The order row after the caller takes it. */
  function Assigned(o: Order, partnerId: int, now: int): (p: Order)
    ensures p.deliveryPartnerId == Some(partnerId) && p.status == PickedUp && p.updatedAt == now
    ensures p.(deliveryPartnerId := o.deliveryPartnerId, status := o.status, updatedAt := o.updatedAt) == o
  {
    o.(deliveryPartnerId := Some(partnerId), status := PickedUp, updatedAt := now)
  }

  /** POST /delivery/orders/:order_id/accept. The assignment check comes before the readiness
      check, and an order assigned to the caller must still be ready. */
  method AcceptOrder(db: Db, partnerId: int, orderId: int, now: int) returns (r: Result<Order>)
    modifies db`orders
    ensures r.Err? ==> db.orders == old(db.orders)
    ensures orderId !in old(db.orders) ==> r == Err(NotFound)
    ensures orderId in old(db.orders) && AssignedElsewhere(old(db.orders)[orderId], partnerId) ==>
      r == Err(AssignedToAnother)
    ensures (orderId in old(db.orders) && !AssignedElsewhere(old(db.orders)[orderId], partnerId) &&
             old(db.orders)[orderId].status != Ready) ==> r == Err(NotReadyForPickup)
    ensures r.Ok? <==>
      orderId in old(db.orders) && !AssignedElsewhere(old(db.orders)[orderId], partnerId) &&
      old(db.orders)[orderId].status == Ready
    ensures r.Ok? ==>
      && r.value == Assigned(old(db.orders)[orderId], partnerId, now)
      && db.orders == old(db.orders)[orderId := r.value]
  {
    if orderId !in db.orders {
      return Err(NotFound);
    }
    var o := db.orders[orderId];
    if AssignedElsewhere(o, partnerId) {
      return Err(AssignedToAnother);
    }
    if o.status != Ready {
      return Err(NotReadyForPickup);
    }
    var p := Assigned(o, partnerId, now);
    db.orders := db.orders[orderId := p];
    r := Ok(p);
  }

  /** The pickup list offers what acceptance allows: an order is open to a partner exactly
      when it is ready and not assigned to another partner (an assignment to id 0 aside,
      which acceptance treats as unassigned). */
  lemma OpenOrdersAreAcceptable(o: Order, partnerId: int)
    requires partnerId != 0
    ensures OpenFor(partnerId, o) <==> o.status == Ready && !AssignedElsewhere(o, partnerId) && o.deliveryPartnerId != Some(0)
  {
  }

  /** The statuses a delivery partner may set. */
  const PartnerStatuses: set<OrderStatus> := {PickedUp, InTransit, Delivered}

  /** The order row after a partner's status update: the delivery time is stamped exactly
      when the new status is delivered. */
  function DeliveryUpdated(o: Order, s: OrderStatus, now: int): (p: Order)
    ensures p.status == s && p.updatedAt == now
    ensures p.actualDeliveryTime == if s == Delivered then Some(now) else o.actualDeliveryTime
    ensures p.(status := o.status, updatedAt := o.updatedAt, actualDeliveryTime := o.actualDeliveryTime) == o
  {
    o.(status := s, updatedAt := now, actualDeliveryTime := if s == Delivered then Some(now) else o.actualDeliveryTime)
  }

  /** The partner row after a location report. */
  function Located(p: Partner, latitude: real, longitude: real, now: int): (q: Partner)
    ensures q.latitude == Some(latitude) && q.longitude == Some(longitude) && q.updatedAt == now
    ensures q.(latitude := p.latitude, longitude := p.longitude, updatedAt := p.updatedAt) == p
  {
    p.(latitude := Some(latitude), longitude := Some(longitude), updatedAt := now)
  }

  /** A present, non-zero number in a request body. */
  predicate Truthy(x: Option<real>)
  {
    x.Some? && x.value != 0.0
  }

  /** PATCH /delivery/orders/:order_id/status. Only an allowed status, only on an order assigned
      to the caller; then the caller's location is recorded when both coordinates are
      truthy. Any current status may be overwritten. */
  method UpdateDeliveryStatus(db: Db, partnerId: int, orderId: int, status: string,
                              latitude: Option<real>, longitude: Option<real>, now: int)
    returns (r: Result<Order>)
    modifies db`orders, db`partners
    ensures r.Ok? <==>
      && AllowedStatus(status, PartnerStatuses).Some?
      && orderId in old(db.orders) && old(db.orders)[orderId].deliveryPartnerId == Some(partnerId)
    ensures r.Err? ==> db.orders == old(db.orders) && db.partners == old(db.partners)
    ensures r.Err? ==>
      r.error == if AllowedStatus(status, PartnerStatuses).None? then InvalidStatus else NotFound
    ensures r.Ok? ==>
      && r.value == DeliveryUpdated(old(db.orders)[orderId], AllowedStatus(status, PartnerStatuses).value, now)
      && db.orders == old(db.orders)[orderId := r.value]
      && db.partners == if Truthy(latitude) && Truthy(longitude) && partnerId in old(db.partners)
                        then old(db.partners)[partnerId := Located(old(db.partners)[partnerId], latitude.value, longitude.value, now)]
                        else old(db.partners)
  {
    var s := AllowedStatus(status, PartnerStatuses);
    if s.None? {
      return Err(InvalidStatus);
    }
    if orderId !in db.orders || db.orders[orderId].deliveryPartnerId != Some(partnerId) {
      return Err(NotFound);
    }
    var o := DeliveryUpdated(db.orders[orderId], s.value, now);
    db.orders := db.orders[orderId := o];
    if Truthy(latitude) && Truthy(longitude) && partnerId in db.partners {
      db.partners := db.partners[partnerId := Located(db.partners[partnerId], latitude.value, longitude.value, now)];
    }
    r := Ok(o);
  }
}
