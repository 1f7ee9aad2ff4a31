/** The order handlers of backend/controllers/orderController.js: placing an order
    (validate the requested menu items, price them, insert the order and its lines),
    preparing a payment for a pending order, confirming a signed payment, and the
    restaurant's status updates. */
module Orders {
  import opened Common
  import opened Tables
  import Listing

  /** One requested line of POST /orders/create: a menu item and a quantity. */
  datatype LineRequest = LineRequest(menuItemId: int, quantity: int)

  /** The body of POST /orders/create; an absent field is `None`. */
  datatype OrderRequest = OrderRequest(
    restaurantId: Option<int>,
    items: Option<seq<LineRequest>>,
    deliveryAddressId: Option<int>,
    specialInstructions: Option<string>)

  /** A request that passed every check of order placement. */
  datatype AcceptedOrder = AcceptedOrder(restaurantId: int, items: seq<LineRequest>)

  /** A line of a new order, priced from its menu row. */
  datatype PricedLine = PricedLine(menuItemId: int, quantity: int, price: real, itemName: string)

  datatype Bill = Bill(subtotal: real, deliveryFee: real, tax: real, total: real)

  /** What a successful order placement answers with. */
  datatype Placed = Placed(orderId: int, lines: seq<PricedLine>, bill: Bill)

  const DeliveryFee: real := 40.0

  // ---------------------------------------------------------------- validation

  /** The distinct menu item ids a request names. */
  function Ids(items: seq<LineRequest>): (r: set<int>)
    ensures |r| <= |items|
    ensures forall i :: 0 <= i < |items| ==> items[i].menuItemId in r
    ensures forall id :: id in r ==> exists i :: 0 <= i < |items| && items[i].menuItemId == id
  {
    if items == [] then {}
    else
      var rest := Ids(items[1..]);
      assert forall id :: id in rest ==> exists i :: 0 <= i < |items| && items[i].menuItemId == id by {
        forall id | id in rest ensures exists i :: 0 <= i < |items| && items[i].menuItemId == id {
          var j :| 0 <= j < |items[1..]| && items[1..][j].menuItemId == id;
          assert items[j + 1].menuItemId == id;
        }
      }
      {items[0].menuItemId} + rest
  }

  predicate DistinctIds(items: seq<LineRequest>)
  {
    forall i, j :: 0 <= i < j < |items| ==> items[i].menuItemId != items[j].menuItemId
  }

  /** Ids are distinct when the first differs from every later one and the rest are distinct. */
  lemma DistinctCons(items: seq<LineRequest>)
    requires items != []
    ensures DistinctIds(items) <==>
      DistinctIds(items[1..]) && items[0].menuItemId !in Ids(items[1..])
  {
    var rest := items[1..];
    assert forall j :: 0 <= j < |rest| ==> rest[j] == items[j + 1];
    if !DistinctIds(items) {
      var i, j :| 0 <= i < j < |items| && items[i].menuItemId == items[j].menuItemId;
      if i == 0 {
        assert rest[j - 1].menuItemId == items[0].menuItemId;
      } else {
        assert rest[i - 1].menuItemId == rest[j - 1].menuItemId;
      }
    } else {
      forall j | 0 <= j < |rest| ensures rest[j].menuItemId != items[0].menuItemId {
        assert rest[j] == items[j + 1];
      }
    }
  }

  /** A request names as many distinct ids as it has lines exactly when no id repeats. */
  lemma {:induction false} IdsCountDistinct(items: seq<LineRequest>)
    ensures |Ids(items)| == |items| <==> DistinctIds(items)
  {
    if items != [] {
      var rest := items[1..];
      IdsCountDistinct(rest);
      DistinctCons(items);
      var x := items[0].menuItemId;
      assert Ids(items) == {x} + Ids(rest);
      if x in Ids(rest) {
        assert Ids(items) == Ids(rest);
      } else {
        assert |Ids(items)| == |Ids(rest)| + 1;
      }
    }
  }

  /** The menu rows SELECT ... WHERE id = ANY(ids) returns: one per distinct requested id
      that exists. */
  function Matched(menu: map<int, MenuItem>, items: seq<LineRequest>): (found: map<int, MenuItem>)
    ensures forall id :: id in found <==> id in menu && id in Ids(items)
    ensures forall id :: id in found ==> found[id] == menu[id]
  {
    map id | id in Ids(items) && id in menu :: menu[id]
  }

  /** A subset is no larger than its superset, and equally large only when equal. */
  lemma {:induction false} SubsetCard(a: set<int>, b: set<int>)
    requires a <= b
    ensures |a| <= |b|
    ensures |a| == |b| ==> a == b
    decreases |a|
  {
    if a != {} {
      Listing.Inhabited(a);
      var y :| y in a;
      SubsetCard(a - {y}, b - {y});
      assert a == (a - {y}) + {y};
      assert b == (b - {y}) + {y};
    }
  }

  /** As many menu rows are found as lines requested exactly when every requested id exists
      and none repeats. */
  lemma MatchedCount(menu: map<int, MenuItem>, items: seq<LineRequest>)
    ensures |Matched(menu, items)| == |items| <==>
      DistinctIds(items) && forall i :: 0 <= i < |items| ==> items[i].menuItemId in menu
  {
    var keys := Matched(menu, items).Keys;
    var ids := Ids(items);
    assert |Matched(menu, items)| == |keys|;
    SubsetCard(keys, ids);
    IdsCountDistinct(items);
    if forall i :: 0 <= i < |items| ==> items[i].menuItemId in menu {
      assert keys == ids;
    } else {
      var i :| 0 <= i < |items| && items[i].menuItemId !in menu;
      assert items[i].menuItemId !in keys;
    }
  }

  /** The names of the rows of `es`, in order. */
  function NamesOf(es: seq<(int, MenuItem)>): (names: seq<string>)
    ensures |names| == |es|
    ensures forall i :: 0 <= i < |es| ==> names[i] == es[i].1.name
  {
    seq(|es|, i requires 0 <= i < |es| => es[i].1.name)
  }

  predicate Unavailable(e: (int, MenuItem))
  {
    !e.1.isAvailable
  }

  /** The names of the unavailable rows among `found`, by increasing id. */
  function UnavailableNames(found: map<int, MenuItem>): seq<string>
  {
    NamesOf(Listing.Filter(Listing.Entries(found), Unavailable))
  }

  /** The error message of an unavailable order lists exactly the unavailable rows' names. */
  lemma UnavailableNamesExact(found: map<int, MenuItem>)
    ensures forall n :: n in UnavailableNames(found) <==>
      exists id :: id in found && !found[id].isAvailable && found[id].name == n
  {
    var es := Listing.Filter(Listing.Entries(found), Unavailable);
    var names := NamesOf(es);
    forall n | n in names ensures exists id :: id in found && !found[id].isAvailable && found[id].name == n {
      var i :| 0 <= i < |names| && names[i] == n;
      assert es[i] in es;
      assert es[i].0 in found && !found[es[i].0].isAvailable && found[es[i].0].name == n;
    }
    forall id | id in found && !found[id].isAvailable ensures found[id].name in names {
      assert (id, found[id]) in Listing.Entries(found);
      assert (id, found[id]) in es;
      var i :| 0 <= i < |es| && es[i] == (id, found[id]);
      assert names[i] == found[id].name;
    }
  }

  /** The checks of order placement, in the handler's order: a truthy restaurant id and a
      non-empty item list; one menu row per requested line; every row of that restaurant;
      every row available. */
  function CheckOrder(menu: map<int, MenuItem>, req: OrderRequest): (r: Result<AcceptedOrder>)
    ensures r.Ok? ==> Some(r.value.restaurantId) == req.restaurantId && Some(r.value.items) == req.items
    ensures r.Err? && r.error.ItemsUnavailable? ==>
      req.items.Some? && r.error.names == UnavailableNames(Matched(menu, req.items.value))
  {
    if req.restaurantId.None? || req.restaurantId.value == 0 || req.items.None? || req.items.value == [] then
      Err(MissingFields)
    else
      var rid := req.restaurantId.value;
      var items := req.items.value;
      var found := Matched(menu, items);
      if |found| != |items| then Err(MenuItemsNotFound)
      else if exists id :: id in found && found[id].restaurantId != rid then Err(MixedRestaurants)
      else if exists id :: id in found && !found[id].isAvailable then Err(ItemsUnavailable(UnavailableNames(found)))
      else Ok(AcceptedOrder(rid, items))
  }

  /** Every requested line names an existing, available menu item of `rid`, and no item twice. */
  predicate Orderable(menu: map<int, MenuItem>, rid: int, items: seq<LineRequest>)
  {
    && DistinctIds(items)
    && forall i :: 0 <= i < |items| ==>
         items[i].menuItemId in menu && menu[items[i].menuItemId].restaurantId == rid &&
         menu[items[i].menuItemId].isAvailable
  }

  /** Order placement accepts a request exactly when it names a truthy restaurant and a
      non-empty list of distinct, existing, available items of that restaurant. A repeated
      id is refused like an unknown one, because the rows found are counted. */
  lemma CheckOrderAccepts(menu: map<int, MenuItem>, req: OrderRequest)
    ensures CheckOrder(menu, req).Ok? <==>
      && req.restaurantId.Some? && req.restaurantId.value != 0
      && req.items.Some? && req.items.value != []
      && Orderable(menu, req.restaurantId.value, req.items.value)
  {
    if CheckOrder(menu, req).Ok? {
      AcceptedIsOrderable(menu, req);
    } else if req.restaurantId.Some? && req.restaurantId.value != 0 && req.items.Some? && req.items.value != [] {
      if Orderable(menu, req.restaurantId.value, req.items.value) {
        OrderableIsAccepted(menu, req);
      }
    }
  }

  /** An accepted request is orderable: every requested row was found, so the checks on
      the rows found cover every line. */
  lemma AcceptedIsOrderable(menu: map<int, MenuItem>, req: OrderRequest)
    requires CheckOrder(menu, req).Ok?
    ensures req.restaurantId.Some? && req.items.Some?
    ensures Orderable(menu, req.restaurantId.value, req.items.value)
  {
    var rid := req.restaurantId.value;
    var items := req.items.value;
    var found := Matched(menu, items);
    assert |found| == |items|;
    assert forall id :: id in found ==> found[id].restaurantId == rid && found[id].isAvailable;
    MatchedRowsOrderable(menu, rid, items);
  }

  /** One row found per line, each an available row of `rid`, makes the request orderable. */
  lemma MatchedRowsOrderable(menu: map<int, MenuItem>, rid: int, items: seq<LineRequest>)
    requires |Matched(menu, items)| == |items|
    requires forall id :: id in Matched(menu, items) ==>
      Matched(menu, items)[id].restaurantId == rid && Matched(menu, items)[id].isAvailable
    ensures Orderable(menu, rid, items)
  {
    var found := Matched(menu, items);
    MatchedCount(menu, items);
    forall i | 0 <= i < |items|
      ensures menu[items[i].menuItemId].restaurantId == rid && menu[items[i].menuItemId].isAvailable
    {
      assert items[i].menuItemId in found;
    }
  }

  /** An orderable request with a truthy restaurant and a non-empty list is accepted. */
  lemma OrderableIsAccepted(menu: map<int, MenuItem>, req: OrderRequest)
    requires req.restaurantId.Some? && req.restaurantId.value != 0 && req.items.Some? && req.items.value != []
    requires Orderable(menu, req.restaurantId.value, req.items.value)
    ensures CheckOrder(menu, req).Ok?
  {
    var rid := req.restaurantId.value;
    var items := req.items.value;
    OrderableFindsAll(menu, rid, items);
    OrderableRowsMatch(menu, rid, items);
  }

  /** An orderable request finds one row per line. */
  lemma OrderableFindsAll(menu: map<int, MenuItem>, rid: int, items: seq<LineRequest>)
    requires Orderable(menu, rid, items)
    ensures |Matched(menu, items)| == |items|
  {
    MatchedCount(menu, items);
  }

  /** The rows found for an orderable request are all available rows of its restaurant. */
  lemma OrderableRowsMatch(menu: map<int, MenuItem>, rid: int, items: seq<LineRequest>)
    requires Orderable(menu, rid, items)
    ensures forall id :: id in Matched(menu, items) ==>
      Matched(menu, items)[id].restaurantId == rid && Matched(menu, items)[id].isAvailable
  {
    var found := Matched(menu, items);
    forall id | id in found ensures found[id].restaurantId == rid && found[id].isAvailable {
      assert id in Ids(items);
      var i :| 0 <= i < |items| && items[i].menuItemId == id;
    }
  }

  /** A request refused for unavailability names exactly the unavailable requested items. */
  lemma CheckOrderUnavailable(menu: map<int, MenuItem>, req: OrderRequest)
    requires CheckOrder(menu, req).Err? && CheckOrder(menu, req).error.ItemsUnavailable?
    ensures req.items.Some?
    ensures forall n :: n in CheckOrder(menu, req).error.names <==>
      exists i :: 0 <= i < |req.items.value| && req.items.value[i].menuItemId in menu &&
        !menu[req.items.value[i].menuItemId].isAvailable && menu[req.items.value[i].menuItemId].name == n
  {
    var items := req.items.value;
    var found := Matched(menu, items);
    UnavailableNamesExact(found);
    forall n ensures n in CheckOrder(menu, req).error.names ==>
      exists i :: 0 <= i < |items| && items[i].menuItemId in menu &&
        !menu[items[i].menuItemId].isAvailable && menu[items[i].menuItemId].name == n
    {
      if n in CheckOrder(menu, req).error.names {
        var id :| id in found && !found[id].isAvailable && found[id].name == n;
        var i :| 0 <= i < |items| && items[i].menuItemId == id;
      }
    }
  }

  // ---------------------------------------------------------------- pricing

  /** Σ menu price × requested quantity, accumulated line by line. */
  function Subtotal(menu: map<int, MenuItem>, items: seq<LineRequest>): real
    requires forall i :: 0 <= i < |items| ==> items[i].menuItemId in menu
  {
    if items == [] then 0.0
    else
      var last := items[|items| - 1];
      Subtotal(menu, items[..|items| - 1]) + menu[last.menuItemId].price * last.quantity as real
  }

  /** With non-negative prices and quantities the subtotal is non-negative, and it is at
      least the cost of any single line. */
  lemma {:induction false} SubtotalBounds(menu: map<int, MenuItem>, items: seq<LineRequest>)
    requires forall i :: 0 <= i < |items| ==> items[i].menuItemId in menu
    requires forall i :: 0 <= i < |items| ==> menu[items[i].menuItemId].price >= 0.0 && items[i].quantity >= 0
    ensures Subtotal(menu, items) >= 0.0
    ensures forall i :: 0 <= i < |items| ==>
      Subtotal(menu, items) >= menu[items[i].menuItemId].price * items[i].quantity as real
  {
    if items != [] {
      var init := items[..|items| - 1];
      assert forall i :: 0 <= i < |init| ==> init[i] == items[i];
      SubtotalBounds(menu, init);
      var last := items[|items| - 1];
      var cost := menu[last.menuItemId].price * last.quantity as real;
      ProductNonNegative(menu[last.menuItemId].price, last.quantity as real);
      assert Subtotal(menu, items) == Subtotal(menu, init) + cost;
      forall i | 0 <= i < |items|
        ensures Subtotal(menu, items) >= menu[items[i].menuItemId].price * items[i].quantity as real
      {
        if i < |init| {
          assert init[i] == items[i];
        }
      }
    }
  }

  /** Every menu row has a non-negative price. */
  predicate NonNegativePrices(menu: map<int, MenuItem>)
  {
    forall id :: id in menu ==> menu[id].price >= 0.0
  }

  /** Every requested quantity is a positive whole number. */
  predicate PositiveQuantities(items: seq<LineRequest>)
  {
    forall i :: 0 <= i < |items| ==> items[i].quantity > 0
  }

  /** The checks of order placement as evidently intended: a request with a truthy restaurant
      and a non-empty list is also refused when a line asks for a quantity below one, before
      the menu is read; every other request is judged as `CheckOrder` judges it. */
  function CheckOrderFixed(menu: map<int, MenuItem>, req: OrderRequest): (r: Result<AcceptedOrder>)
    ensures r.Ok? <==> CheckOrder(menu, req).Ok? && req.items.Some? && PositiveQuantities(req.items.value)
    ensures r.Ok? ==> r == CheckOrder(menu, req)
    ensures r.Err? && r.error != InvalidQuantity ==> r == CheckOrder(menu, req)
    ensures r == Err(InvalidQuantity) ==> req.items.Some? && !PositiveQuantities(req.items.value)
  {
    var r0 := CheckOrder(menu, req);
    if r0 != Err(MissingFields) && req.items.Some? && !PositiveQuantities(req.items.value) then Err(InvalidQuantity)
    else r0
  }

  /** The as-written check accepts a negative quantity, which makes the bill negative: two
      available items at 100.0, one ordered once and one ordered -3 times, give a subtotal of
      -200.0 and a total below zero. The corrected check refuses the same request. */
  lemma NegativeQuantityAccepted()
    ensures var row1 := MenuItem(7, "Dosa", None, 100.0, "Main Course", true, true, None, 0);
      var row2 := row1.(name := "Idli");
      var menu := map[1 := row1, 2 := row2];
      var req := OrderRequest(Some(7), Some([LineRequest(1, 1), LineRequest(2, -3)]), Some(5), None);
      && CheckOrder(menu, req).Ok?
      && Subtotal(menu, req.items.value) == -200.0
      && Price(Subtotal(menu, req.items.value)).total == -170.0
      && CheckOrderFixed(menu, req) == Err(InvalidQuantity)
  {
    var row1 := MenuItem(7, "Dosa", None, 100.0, "Main Course", true, true, None, 0);
    var row2 := row1.(name := "Idli");
    var menu := map[1 := row1, 2 := row2];
    var items := [LineRequest(1, 1), LineRequest(2, -3)];
    var req := OrderRequest(Some(7), Some(items), Some(5), None);
    assert DistinctIds(items);
    OrderableIsAccepted(menu, req);
    assert items[..1] == [LineRequest(1, 1)] && items[..1][..0] == [];
    assert Subtotal(menu, items[..1]) == Subtotal(menu, []) + 100.0 * 1.0;
    assert Subtotal(menu, items) == Subtotal(menu, items[..1]) + 100.0 * (-3.0);
  }

  /** Under the corrected check the bill can no longer go negative: over a menu of
      non-negative prices, an accepted request has a non-negative subtotal that covers every
      line's cost, and a total of at least the delivery fee. */
  lemma FixedSubtotalBounds(menu: map<int, MenuItem>, req: OrderRequest)
    requires NonNegativePrices(menu)
    requires CheckOrderFixed(menu, req).Ok?
    ensures req.items.Some? && forall i :: 0 <= i < |req.items.value| ==> req.items.value[i].menuItemId in menu
    ensures Subtotal(menu, req.items.value) >= 0.0
    ensures Price(Subtotal(menu, req.items.value)).total >= DeliveryFee
  {
    FixedAcceptsOrderable(menu, req);
    var items := req.items.value;
    assert forall i :: 0 <= i < |items| ==> items[i].menuItemId in menu;
    PositiveLinesBounds(menu, items);
  }

  /** A request the corrected check accepts is orderable and asks for positive quantities. */
  lemma FixedAcceptsOrderable(menu: map<int, MenuItem>, req: OrderRequest)
    requires CheckOrderFixed(menu, req).Ok?
    ensures req.restaurantId.Some? && req.items.Some?
    ensures Orderable(menu, req.restaurantId.value, req.items.value) && PositiveQuantities(req.items.value)
  {
    CheckOrderAccepts(menu, req);
  }

  /** Positive quantities of existing rows with non-negative prices bound the subtotal. */
  lemma PositiveLinesBounds(menu: map<int, MenuItem>, items: seq<LineRequest>)
    requires NonNegativePrices(menu) && PositiveQuantities(items)
    requires forall i :: 0 <= i < |items| ==> items[i].menuItemId in menu
    ensures Subtotal(menu, items) >= 0.0
    ensures forall i :: 0 <= i < |items| ==>
      Subtotal(menu, items) >= menu[items[i].menuItemId].price * items[i].quantity as real
  {
    SubtotalBounds(menu, items);
  }

  lemma ProductNonNegative(a: real, b: real)
    requires a >= 0.0 && b >= 0.0
    ensures a * b >= 0.0
  {
  }

  /** The bill for a subtotal: a fixed delivery fee of 40 and a 5% tax on the subtotal. */
  function Price(subtotal: real): (b: Bill)
    ensures b.subtotal == subtotal && b.deliveryFee == 40.0
    ensures b.tax * 20.0 == subtotal
    ensures b.total == subtotal * 1.05 + 40.0
  {
    var tax := subtotal * 0.05;
    Bill(subtotal, DeliveryFee, tax, subtotal + DeliveryFee + tax)
  }

  /** A larger subtotal never gives a smaller total. */
  lemma PriceMonotone(s1: real, s2: real)
    requires s1 <= s2
    ensures Price(s1).total <= Price(s2).total
  {
  }

  /** The lines of a new order: each requested line with the name and price of its menu row
      at the time of ordering. */
  function PricedLines(menu: map<int, MenuItem>, items: seq<LineRequest>): (lines: seq<PricedLine>)
    requires forall i :: 0 <= i < |items| ==> items[i].menuItemId in menu
    ensures |lines| == |items|
    ensures forall i :: 0 <= i < |items| ==>
      lines[i].menuItemId == items[i].menuItemId && lines[i].quantity == items[i].quantity &&
      lines[i].price == menu[items[i].menuItemId].price && lines[i].itemName == menu[items[i].menuItemId].name
  {
    seq(|items|, i requires 0 <= i < |items| =>
      PricedLine(items[i].menuItemId, items[i].quantity, menu[items[i].menuItemId].price, menu[items[i].menuItemId].name))
  }

  /** The order_items rows of order `orderId`, one per line. */
  function OrderItemRows(orderId: int, lines: seq<PricedLine>): (rows: seq<OrderItem>)
    ensures |rows| == |lines|
    ensures forall i :: 0 <= i < |lines| ==>
      rows[i] == OrderItem(orderId, lines[i].menuItemId, lines[i].quantity, lines[i].price, lines[i].itemName)
  {
    seq(|lines|, i requires 0 <= i < |lines| =>
      OrderItem(orderId, lines[i].menuItemId, lines[i].quantity, lines[i].price, lines[i].itemName))
  }

  /** The row inserted into orders for an accepted request. */
  function NewOrder(customerId: int, rid: int, req: OrderRequest, bill: Bill, now: int): (o: Order)
    ensures o.status == Pending && o.paymentStatus == PaymentPending && o.paymentMethod == "online"
    ensures o.customerId == customerId && o.restaurantId == rid && o.deliveryPartnerId.None?
    ensures o.subtotal == bill.subtotal && o.deliveryFee == bill.deliveryFee && o.tax == bill.tax
    ensures o.totalAmount == bill.total
    ensures o.deliveryAddressId == req.deliveryAddressId
    ensures o.specialInstructions.Some? <==> req.specialInstructions.Some? && req.specialInstructions.value != ""
    ensures o.specialInstructions.Some? ==> o.specialInstructions == req.specialInstructions
  {
    Order(
      customerId, rid, None, req.deliveryAddressId, Pending,
      bill.subtotal, bill.deliveryFee, bill.tax, bill.total,
      "online", PaymentPending,
      if req.specialInstructions.Some? && req.specialInstructions.value != "" then req.specialInstructions else None,
      now, now, None)
  }

  /** The items map of order placement: prices every line from its menu row and
      accumulates the subtotal line by line. */
  method PriceLines(menu: map<int, MenuItem>, items: seq<LineRequest>) returns (subtotal: real, lines: seq<PricedLine>)
    requires forall i :: 0 <= i < |items| ==> items[i].menuItemId in menu
    ensures subtotal == Subtotal(menu, items)
    ensures lines == PricedLines(menu, items)
  {
    subtotal := 0.0;
    lines := [];
    var i := 0;
    while i < |items|
      invariant 0 <= i <= |items|
      invariant subtotal == Subtotal(menu, items[..i])
      invariant lines == PricedLines(menu, items[..i])
    {
      var item := items[i];
      var row := menu[item.menuItemId];
      assert items[..i + 1][..i] == items[..i];
      subtotal := subtotal + row.price * item.quantity as real;
      lines := lines + [PricedLine(item.menuItemId, item.quantity, row.price, row.name)];
      i := i + 1;
    }
    assert items[..i] == items;
  }

  /** One INSERT INTO order_items per line of order `id`. */
  method InsertOrderItems(db: Db, id: int, lines: seq<PricedLine>)
    modifies db`orderItems
    ensures db.orderItems == old(db.orderItems) + OrderItemRows(id, lines)
  {
    var k := 0;
    while k < |lines|
      invariant 0 <= k <= |lines|
      invariant db.orderItems == old(db.orderItems) + OrderItemRows(id, lines[..k])
    {
      var line := lines[k];
      assert lines[..k + 1] == lines[..k] + [line];
      db.orderItems := db.orderItems + [OrderItem(id, line.menuItemId, line.quantity, line.price, line.itemName)];
      k := k + 1;
    }
    assert lines[..k] == lines;
  }

  /** POST /orders/create. On any failed check nothing is written; otherwise one order row and one
      order_items row per requested line are inserted. */
  method CreateOrder(db: Db, customerId: int, req: OrderRequest, now: int) returns (r: Result<Placed>)
    requires db.Valid()
    modifies db`orders, db`orderItems, db`nextId
    ensures db.Valid()
    ensures r.Ok? <==> CheckOrder(old(db.menuItems), req).Ok?
    ensures r.Err? ==> CheckOrder(old(db.menuItems), req) == Err(r.error) && unchanged(db)
    ensures r.Ok? ==>
      var a := CheckOrder(old(db.menuItems), req).value;
      && Orderable(old(db.menuItems), a.restaurantId, a.items)
      && r.value.orderId == old(db.nextId) && r.value.orderId !in old(db.orders)
      && r.value.lines == PricedLines(old(db.menuItems), a.items)
      && r.value.bill == Price(Subtotal(old(db.menuItems), a.items))
      && db.orders == old(db.orders)[r.value.orderId := NewOrder(customerId, a.restaurantId, req, r.value.bill, now)]
      && db.orderItems == old(db.orderItems) + OrderItemRows(r.value.orderId, r.value.lines)
      && db.nextId == old(db.nextId) + 1
  {
    var check := CheckOrder(db.menuItems, req);
    if check.Err? {
      return Err(check.error);
    }
    var a := check.value;
    CheckOrderAccepts(db.menuItems, req);
    var placed := PlaceOrder(db, customerId, a.restaurantId, a.items, req, now);
    r := Ok(placed);
  }

  /** The transaction of a placement: the lines priced from the menu, the bill, the order
      row under a fresh id and its order_items rows. */
  method PlaceOrder(db: Db, customerId: int, rid: int, items: seq<LineRequest>, req: OrderRequest, now: int)
    returns (placed: Placed)
    requires db.Valid()
    requires forall i :: 0 <= i < |items| ==> items[i].menuItemId in db.menuItems
    modifies db`orders, db`orderItems, db`nextId
    ensures db.Valid()
    ensures placed.orderId == old(db.nextId) && placed.orderId !in old(db.orders)
    ensures placed.lines == PricedLines(db.menuItems, items)
    ensures placed.bill == Price(Subtotal(db.menuItems, items))
    ensures db.orders == old(db.orders)[placed.orderId := NewOrder(customerId, rid, req, placed.bill, now)]
    ensures db.orderItems == old(db.orderItems) + OrderItemRows(placed.orderId, placed.lines)
    ensures db.nextId == old(db.nextId) + 1
  {
    var subtotal, lines := PriceLines(db.menuItems, items);
    var bill := Price(subtotal);
    var id := db.FreshId();
    db.orders := db.orders[id := NewOrder(customerId, rid, req, bill, now)];
    InsertOrderItems(db, id, lines);
    placed := Placed(id, lines, bill);
  }

  // ---------------------------------------------------------------- payment

  /** The payment order requested from the gateway: an amount in paise and the order id as
      receipt. */
  datatype PaymentIntent = PaymentIntent(amountPaise: int, currency: string, receipt: int)

  /** Rupees to paise, rounding halves up as Math.round does. */
  function ToPaise(amount: real): (p: int)
    ensures amount * 100.0 - 0.5 < p as real <= amount * 100.0 + 0.5
  {
    (amount * 100.0 + 0.5).Floor
  }

  /** An amount with at most two decimals converts to paise exactly. */
  lemma ToPaiseExact(paise: int)
    ensures ToPaise(paise as real / 100.0) == paise
  {
    assert (paise as real / 100.0) * 100.0 == paise as real;
  }

  /** POST /orders/payment/create: only the caller's own order, only while pending. Nothing
      in the store changes. */
  function CreatePaymentOrder(orders: map<int, Order>, customerId: int, orderId: int): (r: Result<PaymentIntent>)
    ensures r.Ok? <==> orderId in orders && orders[orderId].customerId == customerId && orders[orderId].status == Pending
    ensures r.Err? ==> (r.error == NotFound <==> !(orderId in orders && orders[orderId].customerId == customerId))
    ensures r.Err? ==> r.error == NotFound || r.error == NotPending
    ensures r.Ok? ==> r.value.receipt == orderId && r.value.currency == "INR"
    ensures r.Ok? ==>
      orders[orderId].totalAmount * 100.0 - 0.5 < r.value.amountPaise as real <= orders[orderId].totalAmount * 100.0 + 0.5
  {
    if orderId !in orders || orders[orderId].customerId != customerId then Err(NotFound)
    else if orders[orderId].status != Pending then Err(NotPending)
    else Ok(PaymentIntent(ToPaise(orders[orderId].totalAmount), "INR", orderId))
  }

  /** The fields POST /orders/payment/verify receives from the client. */
  datatype PaymentProof = PaymentProof(orderId: int, gatewayOrderId: string, paymentId: string, signature: string)

  /** The text the gateway signs: gateway order id, a bar, payment id. */
  function SignedText(p: PaymentProof): (t: string)
    ensures |t| == |p.gatewayOrderId| + 1 + |p.paymentId|
    ensures t[|p.gatewayOrderId|] == '|'
  {
    p.gatewayOrderId + "|" + p.paymentId
  }

  /** The order row after a verified payment. */
  function Paid(o: Order): (p: Order)
    ensures p.paymentStatus == PaymentSuccess && p.status == Confirmed
    ensures p.(paymentStatus := o.paymentStatus, status := o.status) == o
  {
    o.(paymentStatus := PaymentSuccess, status := Confirmed)
  }

  /** POST /orders/payment/verify. `sign` is HMAC-SHA256 under the gateway secret, as hex.
      A signature mismatch answers 400; an unknown order id fails the transaction (500);
      both leave the store unchanged. */
  method VerifyPayment(db: Db, proof: PaymentProof, sign: string -> string) returns (r: Result<int>)
    modifies db`orders, db`transactions
    ensures r.Ok? <==> sign(SignedText(proof)) == proof.signature && proof.orderId in old(db.orders)
    ensures r.Err? ==> unchanged(db`orders, db`transactions)
    ensures r.Err? ==> r.error == if sign(SignedText(proof)) != proof.signature then VerificationFailed else ServerError
    ensures r.Ok? ==>
      && r.value == proof.orderId
      && db.orders == old(db.orders)[proof.orderId := Paid(old(db.orders)[proof.orderId])]
      && db.transactions == old(db.transactions) +
           [Transaction(proof.orderId, old(db.orders)[proof.orderId].totalAmount, "razorpay", proof.paymentId, "success")]
  {
    if sign(SignedText(proof)) != proof.signature {
      return Err(VerificationFailed);
    }
    if proof.orderId !in db.orders {
      return Err(ServerError);
    }
    var o := db.orders[proof.orderId];
    db.orders := db.orders[proof.orderId := Paid(o)];
    db.transactions := db.transactions + [Transaction(proof.orderId, o.totalAmount, "razorpay", proof.paymentId, "success")];
    r := Ok(proof.orderId);
  }

  // ---------------------------------------------------------------- restaurant status updates

  /** The statuses a restaurant may set. */
  const RestaurantStatuses: set<OrderStatus> := {Confirmed, Preparing, Ready, PickedUp, Cancelled}

  /** PATCH /orders/:order_id/status by a restaurant. Any current status may be overwritten. */
  method UpdateOrderStatus(db: Db, restaurantId: int, orderId: int, status: string, now: int) returns (r: Result<Order>)
    modifies db`orders
    ensures r.Ok? <==>
      AllowedStatus(status, RestaurantStatuses).Some? && orderId in old(db.orders) &&
      old(db.orders)[orderId].restaurantId == restaurantId
    ensures r.Err? ==> db.orders == old(db.orders)
    ensures r.Err? ==> r.error == if AllowedStatus(status, RestaurantStatuses).None? then InvalidStatus else NotFound
    ensures r.Ok? ==>
      && r.value == old(db.orders)[orderId].(status := AllowedStatus(status, RestaurantStatuses).value, updatedAt := now)
      && db.orders == old(db.orders)[orderId := r.value]
  {
    var s := AllowedStatus(status, RestaurantStatuses);
    if s.None? {
      return Err(InvalidStatus);
    }
    if orderId !in db.orders || db.orders[orderId].restaurantId != restaurantId {
      return Err(NotFound);
    }
    var o := db.orders[orderId].(status := s.value, updatedAt := now);
    db.orders := db.orders[orderId := o];
    r := Ok(o);
  }
}
