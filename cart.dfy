/** The customer app's cart: a list of entries and the restaurant they are ordered from.
    Every operation replaces the list, the restaurant, or both. */
module ShoppingCart {

  import opened Common

  /** One cart entry: the menu item as the page passes it in, plus how many are wanted. */
  datatype CartItem = CartItem(id: int, name: string, price: real, restaurantId: int, quantity: int)

  datatype RestaurantInfo = RestaurantInfo(id: int, name: string)

  // ---------------------------------------------------------------- list operations

  /** `cart.find(e => e.id === id)`: the first entry with that id. */
  function Find(s: seq<CartItem>, id: int): (r: Option<CartItem>)
    ensures r.Some? <==> exists i :: 0 <= i < |s| && s[i].id == id
    ensures r.Some? ==> r.value in s && r.value.id == id
  {
    if s == [] then None else if s[0].id == id then Some(s[0]) else Find(s[1..], id)
  }

  /** The number of entries with that id. */
  function Occurrences(s: seq<CartItem>, id: int): nat
  {
    if s == [] then 0 else (if s[0].id == id then 1 else 0) + Occurrences(s[1..], id)
  }

  /** The prices of the entries with that id, added up. */
  function PriceSum(s: seq<CartItem>, id: int): real
  {
    if s == [] then 0.0 else (if s[0].id == id then s[0].price else 0.0) + PriceSum(s[1..], id)
  }

  /** The quantities of the entries with that id, added up. */
  function QuantityOf(s: seq<CartItem>, id: int): int
  {
    if s == [] then 0 else (if s[0].id == id then s[0].quantity else 0) + QuantityOf(s[1..], id)
  }

  /** The increment `map` of addToCart: one more of every entry with that id. */
  function Bumped(s: seq<CartItem>, id: int): (r: seq<CartItem>)
    ensures |r| == |s|
    ensures forall i :: 0 <= i < |s| ==>
      r[i] == if s[i].id == id then s[i].(quantity := s[i].quantity + 1) else s[i]
  {
    if s == [] then []
    else [if s[0].id == id then s[0].(quantity := s[0].quantity + 1) else s[0]] + Bumped(s[1..], id)
  }

  /** The entries after addToCart has decided to add: an entry already holding the id is
      incremented, otherwise the item is appended with quantity 1 whatever quantity it
      came with. */
  function Added(s: seq<CartItem>, item: CartItem): seq<CartItem>
  {
    if Find(s, item.id).Some? then Bumped(s, item.id) else s + [item.(quantity := 1)]
  }

  /** The `filter` of removeFromCart: every entry with that id dropped, the others kept
      in order. */
  function Without(s: seq<CartItem>, id: int): (r: seq<CartItem>)
    ensures |r| == |s| - Occurrences(s, id)
    ensures forall x :: x in r <==> x in s && x.id != id
  {
    if s == [] then []
    else if s[0].id == id then Without(s[1..], id)
    else [s[0]] + Without(s[1..], id)
  }

  /** The `map` of updateQuantity: every entry with that id gets quantity `q`. */
  function WithQuantity(s: seq<CartItem>, id: int, q: int): (r: seq<CartItem>)
    ensures |r| == |s|
    ensures forall i :: 0 <= i < |s| ==> r[i] == if s[i].id == id then s[i].(quantity := q) else s[i]
  {
    if s == [] then []
    else [if s[0].id == id then s[0].(quantity := q) else s[0]] + WithQuantity(s[1..], id, q)
  }

  /** getItemCount: the sum of the quantities. */
  function Count(s: seq<CartItem>): int
  {
    if s == [] then 0 else s[0].quantity + Count(s[1..])
  }

  /** getCartTotal: the sum of price × quantity. */
  function Total(s: seq<CartItem>): real
  {
    if s == [] then 0.0 else s[0].price * s[0].quantity as real + Total(s[1..])
  }

  // ---------------------------------------------------------------- the cart invariant

  predicate UniqueIds(s: seq<CartItem>)
  {
    forall i, j :: 0 <= i < j < |s| ==> s[i].id != s[j].id
  }

  predicate PositiveQuantities(s: seq<CartItem>)
  {
    forall i :: 0 <= i < |s| ==> s[i].quantity >= 1
  }

  /** With distinct ids, an id that is present occurs exactly once. */
  lemma {:induction false} UniqueOccurrence(s: seq<CartItem>, id: int)
    requires UniqueIds(s)
    ensures Occurrences(s, id) == (if Find(s, id).Some? then 1 else 0)
  {
    if s != [] {
      UniqueOccurrence(s[1..], id);
    }
  }

  /** Filtering keeps ids distinct. */
  lemma {:induction false} WithoutKeepsUnique(s: seq<CartItem>, id: int)
    requires UniqueIds(s)
    ensures UniqueIds(Without(s, id))
  {
    if s != [] {
      WithoutKeepsUnique(s[1..], id);
      var r := Without(s[1..], id);
      forall x | x in r ensures x.id != s[0].id {
        var k :| 0 <= k < |s[1..]| && s[1..][k] == x;
        assert s[k + 1] == x;
      }
    }
  }

  // ---------------------------------------------------------------- counts and totals

  /** Incrementing adds one per matching entry to the item count. */
  lemma {:induction false} CountBumped(s: seq<CartItem>, id: int)
    ensures Count(Bumped(s, id)) == Count(s) + Occurrences(s, id)
  {
    if s != [] {
      CountBumped(s[1..], id);
      assert Bumped(s, id)[1..] == Bumped(s[1..], id);
    }
  }

  /** Incrementing adds each matching entry's price to the total. */
  lemma {:induction false} TotalBumped(s: seq<CartItem>, id: int)
    ensures Total(Bumped(s, id)) == Total(s) + PriceSum(s, id)
  {
    if s != [] {
      TotalBumped(s[1..], id);
      assert Bumped(s, id)[1..] == Bumped(s[1..], id);
    }
  }

  /** With distinct ids, the matching prices are the price of the entry `find` returns. */
  lemma {:induction false} UniquePriceSum(s: seq<CartItem>, id: int)
    requires UniqueIds(s)
    ensures PriceSum(s, id) == (if Find(s, id).Some? then Find(s, id).value.price else 0.0)
  {
    if s != [] {
      UniquePriceSum(s[1..], id);
      if s[0].id == id {
        UniqueOccurrence(s, id);
        ZeroOccurrencesNoPrice(s[1..], id);
      }
    }
  }

  lemma {:induction false} ZeroOccurrencesNoPrice(s: seq<CartItem>, id: int)
    requires Occurrences(s, id) == 0
    ensures PriceSum(s, id) == 0.0 && QuantityOf(s, id) == 0
  {
    if s != [] {
      ZeroOccurrencesNoPrice(s[1..], id);
    }
  }

  lemma {:induction false} CountAppend(a: seq<CartItem>, b: seq<CartItem>)
    ensures Count(a + b) == Count(a) + Count(b)
    ensures Total(a + b) == Total(a) + Total(b)
  {
    if a == [] {
      assert a + b == b;
    } else {
      CountAppend(a[1..], b);
      assert (a + b)[1..] == a[1..] + b;
    }
  }

  /** Adding to a cart of distinct ids raises the item count by exactly one, and the total
      by one unit price: the price already in the cart for that id, or the item's own. */
  lemma AddedCountsOne(s: seq<CartItem>, item: CartItem)
    requires UniqueIds(s)
    ensures Count(Added(s, item)) == Count(s) + 1
    ensures Total(Added(s, item)) ==
      Total(s) + (if Find(s, item.id).Some? then Find(s, item.id).value.price else item.price)
  {
    if Find(s, item.id).Some? {
      CountBumped(s, item.id);
      UniqueOccurrence(s, item.id);
      TotalBumped(s, item.id);
      UniquePriceSum(s, item.id);
    } else {
      CountAppend(s, [item.(quantity := 1)]);
    }
  }

  /** Adding keeps ids distinct and quantities positive, and leaves the id in the cart. */
  lemma AddedKeepsInvariant(s: seq<CartItem>, item: CartItem)
    requires UniqueIds(s) && PositiveQuantities(s)
    ensures UniqueIds(Added(s, item)) && PositiveQuantities(Added(s, item))
    ensures Find(Added(s, item), item.id).Some?
  {
    if Find(s, item.id).None? {
      AppendKeepsInvariant(s, item);
    } else {
      BumpKeepsInvariant(s, item.id);
    }
  }

  lemma AppendKeepsInvariant(s: seq<CartItem>, item: CartItem)
    requires UniqueIds(s) && PositiveQuantities(s) && Find(s, item.id).None?
    ensures var r := s + [item.(quantity := 1)];
      UniqueIds(r) && PositiveQuantities(r) && Find(r, item.id).Some?
  {
    var r := s + [item.(quantity := 1)];
    assert r[|s|].id == item.id;
    forall i, j | 0 <= i < j < |r| ensures r[i].id != r[j].id {
      assert r[i] == s[i];
      if j < |s| {
        assert r[j] == s[j];
      }
    }
  }

  lemma BumpKeepsInvariant(s: seq<CartItem>, id: int)
    requires UniqueIds(s) && PositiveQuantities(s) && Find(s, id).Some?
    ensures var r := Bumped(s, id);
      UniqueIds(r) && PositiveQuantities(r) && Find(r, id).Some?
  {
    var r := Bumped(s, id);
    var i :| 0 <= i < |s| && s[i].id == id;
    assert r[i].id == id;
    assert forall k :: 0 <= k < |s| ==> r[k].id == s[k].id;
  }

  /** Removing drops the removed entries' quantities from the item count. */
  lemma {:induction false} CountWithout(s: seq<CartItem>, id: int)
    ensures Count(Without(s, id)) == Count(s) - QuantityOf(s, id)
  {
    if s != [] {
      CountWithout(s[1..], id);
    }
  }

  /** Setting a quantity replaces the matching entries' quantities in the item count. */
  lemma {:induction false} CountWithQuantity(s: seq<CartItem>, id: int, q: int)
    ensures Count(WithQuantity(s, id, q)) == Count(s) - QuantityOf(s, id) + q * Occurrences(s, id)
  {
    if s != [] {
      CountWithQuantity(s[1..], id, q);
      assert WithQuantity(s, id, q)[1..] == WithQuantity(s[1..], id, q);
    }
  }

  /** Removing an id that is not in the cart changes nothing. */
  lemma {:induction false} WithoutAbsent(s: seq<CartItem>, id: int)
    requires Find(s, id).None?
    ensures Without(s, id) == s
  {
    if s != [] {
      WithoutAbsent(s[1..], id);
    }
  }

  // ---------------------------------------------------------------- the restaurant switch

  /** Every entry comes from restaurant `rid`. */
  predicate FromRestaurant(s: seq<CartItem>, rid: int)
  {
    forall i :: 0 <= i < |s| ==> s[i].restaurantId == rid
  }

  /** As written, a confirmed switch to another restaurant keeps every entry the cart
      held: the clearing `setCart([])` is overwritten by the later `setCart`, computed
      from the list as it was before the call. */
  lemma SwitchKeepsOldItems(s: seq<CartItem>, item: CartItem)
    ensures forall x :: x in s && x.id != item.id ==> x in Added(s, item)
    ensures |Added(s, item)| >= |s|
  {
    forall x | x in s && x.id != item.id ensures x in Added(s, item) {
      var i :| 0 <= i < |s| && s[i] == x;
      assert Added(s, item)[i] == x;
    }
  }

  /** A cart of one dosa from restaurant 7, switched to restaurant 9 to add a pizza, holds
      items from both restaurants. */
  lemma SwitchMixesRestaurants()
    ensures var s := [CartItem(1, "Dosa", 50.0, 7, 1)];
            var r := Added(s, CartItem(2, "Pizza", 200.0, 9, 1));
            r == s + [CartItem(2, "Pizza", 200.0, 9, 1)] && !FromRestaurant(r, 9)
  {
    var s := [CartItem(1, "Dosa", 50.0, 7, 1)];
    assert Find(s[1..], 2).None?;
    var r := Added(s, CartItem(2, "Pizza", 200.0, 9, 1));
    assert r[0].restaurantId == 7;
  }

  /** The entries the switch evidently means to leave: only the new item when the
      restaurant changes, the ordinary add otherwise. */
  function SwitchedItems(s: seq<CartItem>, current: Option<RestaurantInfo>, item: CartItem, info: RestaurantInfo): seq<CartItem>
  {
    if current.Some? && current.value.id != info.id then [item.(quantity := 1)] else Added(s, item)
  }

  /** With the clearing taking effect, a cart whose entries all come from its current
      restaurant still has that property after any add of that restaurant's item. */
  lemma SwitchedItemsFromOneRestaurant(s: seq<CartItem>, current: Option<RestaurantInfo>, item: CartItem, info: RestaurantInfo)
    requires current.Some? ==> FromRestaurant(s, current.value.id)
    requires current.None? ==> s == []
    requires item.restaurantId == info.id
    ensures FromRestaurant(SwitchedItems(s, current, item, info), info.id)
  {
    if !(current.Some? && current.value.id != info.id) && Find(s, item.id).Some? {
      var r := Bumped(s, item.id);
      assert forall i :: 0 <= i < |r| ==> r[i].restaurantId == s[i].restaurantId;
    }
  }

  // ---------------------------------------------------------------- the cart state

  class Cart {
    var items: seq<CartItem>
    var restaurant: Option<RestaurantInfo>

    /** Distinct ids, positive quantities, and a restaurant exactly when there are entries. */
    ghost predicate Valid()
      reads this
    {
      UniqueIds(items) && PositiveQuantities(items) && (items == [] <==> restaurant.None?)
    }

    constructor()
      ensures Valid()
      ensures items == [] && restaurant == None
    {
      items := [];
      restaurant := None;
    }

    /** addToCart. `confirm` is the user's answer to the prompt, consulted only when the
        cart belongs to another restaurant. */
    method AddToCart(item: CartItem, info: RestaurantInfo, confirm: bool) returns (added: bool)
      requires Valid()
      modifies this
      ensures Valid()
      ensures added <==> confirm || old(restaurant).None? || old(restaurant).value.id == info.id
      ensures !added ==> items == old(items) && restaurant == old(restaurant)
      ensures added ==> items == Added(old(items), item)
      ensures added ==> restaurant == if old(restaurant).Some? && old(restaurant).value.id == info.id
                                     then old(restaurant) else Some(info)
      ensures added ==> Count(items) == Count(old(items)) + 1
    {
      if restaurant.Some? && restaurant.value.id != info.id {
        if !confirm {
          return false;
        }
        // The clearing of the list is overwritten below by a list computed from `items`.
        restaurant := Some(info);
      } else if restaurant.None? {
        restaurant := Some(info);
      }
      AddedCountsOne(items, item);
      AddedKeepsInvariant(items, item);
      var existing := Find(items, item.id);
      if existing.Some? {
        items := Bumped(items, item.id);
      } else {
        items := items + [item.(quantity := 1)];
      }
      return true;
    }

    /** removeFromCart. */
    method RemoveFromCart(id: int)
      requires Valid()
      modifies this
      ensures Valid()
      ensures items == Without(old(items), id)
      ensures restaurant == if items == [] then None else old(restaurant)
      ensures Count(items) == Count(old(items)) - QuantityOf(old(items), id)
    {
      WithoutKeepsUnique(items, id);
      CountWithout(items, id);
      var updated := Without(items, id);
      items := updated;
      if |updated| == 0 {
        restaurant := None;
      }
    }

    /** updateQuantity: a quantity of zero or less removes the entry. */
    method UpdateQuantity(id: int, quantity: int)
      requires Valid()
      modifies this
      ensures Valid()
      ensures quantity <= 0 ==> items == Without(old(items), id)
                                && restaurant == if items == [] then None else old(restaurant)
      ensures quantity > 0 ==> items == WithQuantity(old(items), id, quantity) && restaurant == old(restaurant)
      ensures quantity > 0 ==>
        Count(items) == Count(old(items)) - QuantityOf(old(items), id)
                        + (if Find(old(items), id).Some? then quantity else 0)
    {
      if quantity <= 0 {
        RemoveFromCart(id);
        return;
      }
      CountWithQuantity(items, id, quantity);
      UniqueOccurrence(items, id);
      items := WithQuantity(items, id, quantity);
    }

    /** clearCart. */
    method ClearCart()
      modifies this
      ensures Valid()
      ensures items == [] && restaurant == None
    {
      items := [];
      restaurant := None;
    }

    /** getCartTotal: nothing for an empty cart; never negative when no price is. */
    function CartTotal(): (t: real)
      reads this
      ensures items == [] ==> t == 0.0
      ensures PositiveQuantities(items) && NonNegativePrices(items) ==> t >= 0.0
    {
      TotalNonNegative(items);
      Total(items)
    }

    /** getItemCount: with positive quantities, at least one per entry, and exactly one per
        entry only when every quantity is 1. */
    function ItemCount(): (n: int)
      reads this
      ensures PositiveQuantities(items) ==> n >= |items|
      ensures PositiveQuantities(items) ==> (n == |items| <==> forall i :: 0 <= i < |items| ==> items[i].quantity == 1)
    {
      CountAtLeastLength(items);
      CountIsLength(items);
      Count(items)
    }
  }

  lemma {:induction false} CountAtLeastLength(s: seq<CartItem>)
    ensures PositiveQuantities(s) ==> Count(s) >= |s|
  {
    if s != [] {
      CountAtLeastLength(s[1..]);
    }
  }

  /** With positive quantities the count equals the number of entries exactly when every
      quantity is 1. */
  lemma {:induction false} CountIsLength(s: seq<CartItem>)
    ensures PositiveQuantities(s) ==> (Count(s) == |s| <==> forall i :: 0 <= i < |s| ==> s[i].quantity == 1)
  {
    if s != [] && PositiveQuantities(s) {
      var rest := s[1..];
      assert forall i :: 0 <= i < |rest| ==> rest[i] == s[i + 1];
      CountIsLength(rest);
      CountAtLeastLength(rest);
      if Count(s) == |s| {
        forall i | 0 <= i < |s| ensures s[i].quantity == 1 {
          if i > 0 {
            assert rest[i - 1] == s[i];
          }
        }
      }
    }
  }

  predicate NonNegativePrices(s: seq<CartItem>)
  {
    forall i :: 0 <= i < |s| ==> s[i].price >= 0.0
  }

  /** Non-negative prices and positive quantities give a non-negative total. */
  lemma {:induction false} TotalNonNegative(s: seq<CartItem>)
    ensures PositiveQuantities(s) && NonNegativePrices(s) ==> Total(s) >= 0.0
  {
    if s != [] {
      var rest := s[1..];
      assert forall i :: 0 <= i < |rest| ==> rest[i] == s[i + 1];
      TotalNonNegative(rest);
      if PositiveQuantities(s) && NonNegativePrices(s) {
        assert s[0].price * s[0].quantity as real >= 0.0 by {
          LineNonNegative(s[0].price, s[0].quantity as real);
        }
      }
    }
  }

  lemma LineNonNegative(a: real, b: real)
    requires a >= 0.0 && b >= 0.0
    ensures a * b >= 0.0
  {
  }
}
