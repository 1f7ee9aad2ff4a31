/** The relational store the backend handlers work on: one row type per table and a
    class `Db` holding every table. A table the handlers look rows up in by id is a
    map from id to row; order_items and transactions are only ever appended to and are
    sequences. `nextId` stands for the tables' serial id sequences: every id in use is
    below it, so a fresh id never collides with an existing row. */
module Tables {
  import opened Common

  /** orders.status. */
  datatype OrderStatus =
    | Pending | Confirmed | Preparing | Ready | PickedUp | InTransit | Delivered | Cancelled

  /** The text stored in orders.status and sent in requests. */
  function StatusName(s: OrderStatus): string
  {
    match s
    case Pending => "pending"
    case Confirmed => "confirmed"
    case Preparing => "preparing"
    case Ready => "ready"
    case PickedUp => "picked_up"
    case InTransit => "in_transit"
    case Delivered => "delivered"
    case Cancelled => "cancelled"
  }

  /** Reads a status out of request text; any other text is no status. */
  function ParseStatus(t: string): (r: Option<OrderStatus>)
    ensures r.Some? ==> StatusName(r.value) == t
  {
    if t == "pending" then Some(Pending)
    else if t == "confirmed" then Some(Confirmed)
    else if t == "preparing" then Some(Preparing)
    else if t == "ready" then Some(Ready)
    else if t == "picked_up" then Some(PickedUp)
    else if t == "in_transit" then Some(InTransit)
    else if t == "delivered" then Some(Delivered)
    else if t == "cancelled" then Some(Cancelled)
    else None
  }

  /** Every status name reads back as that status, so no two statuses share a name. */
  lemma ParseStatusName(s: OrderStatus)
    ensures ParseStatus(StatusName(s)) == Some(s)
  {
  }

  lemma StatusNameInjective(s: OrderStatus, u: OrderStatus)
    requires StatusName(s) == StatusName(u)
    ensures s == u
  {
    ParseStatusName(s);
    ParseStatusName(u);
  }

  /** The status named by request text, when it is one of `allowed`. */
  function AllowedStatus(text: string, allowed: set<OrderStatus>): (r: Option<OrderStatus>)
    ensures r.Some? <==> exists s :: s in allowed && StatusName(s) == text
    ensures r.Some? ==> r.value in allowed && StatusName(r.value) == text
  {
    var p := ParseStatus(text);
    if p.Some? && p.value in allowed then p
    else
      assert forall s :: StatusName(s) == text ==> p == Some(s) by {
        forall s | StatusName(s) == text ensures p == Some(s) { ParseStatusName(s); }
      }
      None
  }

  /** orders.payment_status. */
  datatype PaymentStatus = PaymentPending | PaymentSuccess | PaymentFailed

  datatype Order = Order(
    customerId: int,
    restaurantId: int,
    deliveryPartnerId: Option<int>,
    deliveryAddressId: Option<int>,
    status: OrderStatus,
    subtotal: real,
    deliveryFee: real,
    tax: real,
    totalAmount: real,
    paymentMethod: string,
    paymentStatus: PaymentStatus,
    specialInstructions: Option<string>,
    createdAt: int,
    updatedAt: int,
    actualDeliveryTime: Option<int>)

  /** One line of an order: the menu item's name and price as they were when ordered. */
  datatype OrderItem = OrderItem(orderId: int, menuItemId: int, quantity: int, price: real, itemName: string)

  datatype Transaction = Transaction(orderId: int, amount: real, paymentMethod: string, gatewayId: string, status: string)

  datatype MenuItem = MenuItem(
    restaurantId: int,
    name: string,
    description: Option<string>,
    price: real,
    category: string,
    isVegetarian: bool,
    isAvailable: bool,
    imageUrl: Option<string>,
    updatedAt: int)

  /** A review of one order; each rating is 1 to 5 or absent (NULL). */
  datatype Review = Review(
    orderId: int,
    userId: int,
    restaurantId: int,
    deliveryPartnerId: Option<int>,
    restaurantRating: Option<int>,
    restaurantReview: Option<string>,
    deliveryRating: Option<int>,
    deliveryReview: Option<string>)

  /** A restaurant account. `rating` is kept in tenths (4.3 is 43), the precision
      of ROUND(..., 1). */
  datatype Restaurant = Restaurant(
    name: string,
    phone: string,
    address: string,
    city: string,
    cuisineType: string,
    openingTime: string,
    closingTime: string,
    imageUrl: Option<string>,
    rating: int,
    totalRatings: int,
    isActive: bool,
    updatedAt: int)

  /** A delivery partner account; `rating` in tenths as for restaurants. */
  datatype Partner = Partner(
    name: string,
    isAvailable: bool,
    rating: int,
    totalRatings: int,
    latitude: Option<real>,
    longitude: Option<real>,
    updatedAt: int)

  datatype Address = Address(
    userId: int,
    line1: string,
    line2: Option<string>,
    city: string,
    state: string,
    pincode: string,
    latitude: Option<real>,
    longitude: Option<real>,
    isDefault: bool,
    createdAt: int)

  class Db {
    var orders: map<int, Order>
    var orderItems: seq<OrderItem>
    var transactions: seq<Transaction>
    var menuItems: map<int, MenuItem>
    var reviews: map<int, Review>
    var restaurants: map<int, Restaurant>
    var partners: map<int, Partner>
    var addresses: map<int, Address>
    var nextId: int

    /** Ids handed out by the serial sequences are positive, and those of the tables the
        handlers insert into are below `nextId`. */
    ghost predicate Valid()
      reads this
    {
      && 1 <= nextId
      && (forall k :: k in restaurants ==> 1 <= k)
      && (forall k :: k in partners ==> 1 <= k)
      && (forall k :: k in orders ==> 1 <= k < nextId)
      && (forall k :: k in menuItems ==> 1 <= k < nextId)
      && (forall k :: k in reviews ==> 1 <= k < nextId)
      && (forall k :: k in addresses ==> 1 <= k < nextId)
    }

    constructor (restaurants: map<int, Restaurant>, partners: map<int, Partner>)
      requires forall k :: k in restaurants ==> 1 <= k
      requires forall k :: k in partners ==> 1 <= k
      ensures Valid()
      ensures this.restaurants == restaurants && this.partners == partners
      ensures orders == map[] && orderItems == [] && transactions == []
      ensures menuItems == map[] && reviews == map[] && addresses == map[]
    {
      this.restaurants := restaurants;
      this.partners := partners;
      orders := map[];
      orderItems := [];
      transactions := [];
      menuItems := map[];
      reviews := map[];
      addresses := map[];
      nextId := 1;
    }

    /** Draws the next id of a serial sequence. */
    method FreshId() returns (id: int)
      requires Valid()
      modifies this`nextId
      ensures Valid()
      ensures id == old(nextId) && nextId == id + 1
      ensures id !in orders && id !in menuItems && id !in reviews && id !in addresses
    {
      id := nextId;
      nextId := nextId + 1;
    }
  }
}
