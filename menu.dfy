/** The menu handlers of backend/controllers/menuController.js: the public menu of a
    restaurant with its optional filters, and the owner's add, patch, availability toggle
    and delete of menu items. */
module Menu {
  import opened Common
  import opened Tables
  import Listing

  /** A present, non-zero price. */
  predicate TruthyPrice(x: Option<real>)
  {
    x.Some? && x.value != 0.0
  }

  // ---------------------------------------------------------------- adding

  /** The body of POST /menu; an absent field is `None`. */
  datatype MenuItemRequest = MenuItemRequest(
    name: Option<string>,
    description: Option<string>,
    price: Option<real>,
    category: Option<string>,
    isVegetarian: Option<bool>,
    isAvailable: Option<bool>,
    imageUrl: Option<string>)

  const DefaultCategory: string := "Main Course"

  /** The row POST /menu inserts. */
  function NewMenuItem(restaurantId: int, req: MenuItemRequest, now: int): (m: MenuItem)
    requires TruthyText(req.name) && TruthyPrice(req.price)
    ensures m.restaurantId == restaurantId && m.name == req.name.value && m.price == req.price.value
    ensures m.category == if TruthyText(req.category) then req.category.value else DefaultCategory
    ensures m.category != ""
    ensures m.isVegetarian == (req.isVegetarian == Some(true))
    ensures m.isAvailable == (req.isAvailable != Some(false))
    ensures m.description.Some? <==> TruthyText(req.description)
    ensures m.imageUrl.Some? <==> TruthyText(req.imageUrl)
  {
    MenuItem(restaurantId, req.name.value,
      if TruthyText(req.description) then req.description else None,
      req.price.value,
      if TruthyText(req.category) then req.category.value else DefaultCategory,
      if req.isVegetarian.Some? then req.isVegetarian.value else false,
      if req.isAvailable.Some? then req.isAvailable.value else true,
      if TruthyText(req.imageUrl) then req.imageUrl else None,
      now)
  }

  /** POST /menu: a name and a price are required; the item belongs to the caller. */
  method AddMenuItem(db: Db, restaurantId: int, req: MenuItemRequest, now: int) returns (r: Result<int>)
    requires db.Valid()
    modifies db`menuItems, db`nextId
    ensures db.Valid()
    ensures r.Ok? <==> TruthyText(req.name) && TruthyPrice(req.price)
    ensures r.Err? ==> r.error == MissingFields && unchanged(db`menuItems, db`nextId)
    ensures r.Ok? ==>
      && r.value !in old(db.menuItems)
      && db.menuItems == old(db.menuItems)[r.value := NewMenuItem(restaurantId, req, now)]
  {
    if !TruthyText(req.name) || !TruthyPrice(req.price) {
      return Err(MissingFields);
    }
    var id := db.FreshId();
    db.menuItems := db.menuItems[id := NewMenuItem(restaurantId, req, now)];
    r := Ok(id);
  }

  // ---------------------------------------------------------------- patching

  /** The body of PUT /menu/:item_id. A description or an image url that is present may
      be null, hence the inner option. */
  datatype MenuPatch = MenuPatch(
    name: Option<string>,
    description: Option<Option<string>>,
    price: Option<real>,
    category: Option<string>,
    isVegetarian: Option<bool>,
    isAvailable: Option<bool>,
    imageUrl: Option<Option<string>>)

  /** One `column = value` entry of the SET list. */
  datatype FieldUpdate =
    | SetName(name: string)
    | SetDescription(description: Option<string>)
    | SetPrice(price: real)
    | SetCategory(category: string)
    | SetVegetarian(isVegetarian: bool)
    | SetAvailable(isAvailable: bool)
    | SetImageUrl(imageUrl: Option<string>)

  /** A menu row after one SET entry. */
  function Apply(m: MenuItem, u: FieldUpdate): MenuItem
  {
    match u
    case SetName(v) => m.(name := v)
    case SetDescription(v) => m.(description := v)
    case SetPrice(v) => m.(price := v)
    case SetCategory(v) => m.(category := v)
    case SetVegetarian(v) => m.(isVegetarian := v)
    case SetAvailable(v) => m.(isAvailable := v)
    case SetImageUrl(v) => m.(imageUrl := v)
  }

  /** The k-th entry the handler may push onto the SET list, in the order it tests them:
      name, price and category when truthy, the others when present. */
  function Entry(p: MenuPatch, k: nat): Option<FieldUpdate>
  {
    if k == 0 then (if TruthyText(p.name) then Some(SetName(p.name.value)) else None)
    else if k == 1 then (if p.description.Some? then Some(SetDescription(p.description.value)) else None)
    else if k == 2 then (if TruthyPrice(p.price) then Some(SetPrice(p.price.value)) else None)
    else if k == 3 then (if TruthyText(p.category) then Some(SetCategory(p.category.value)) else None)
    else if k == 4 then (if p.isVegetarian.Some? then Some(SetVegetarian(p.isVegetarian.value)) else None)
    else if k == 5 then (if p.isAvailable.Some? then Some(SetAvailable(p.isAvailable.value)) else None)
    else if k == 6 then (if p.imageUrl.Some? then Some(SetImageUrl(p.imageUrl.value)) else None)
    else None
  }

  const EntryCount: nat := 7

  /** The row after the first `k` candidate entries. */
  function Stage(m: MenuItem, p: MenuPatch, k: nat): MenuItem
  {
    if k == 0 then m
    else if Entry(p, k - 1).Some? then Apply(Stage(m, p, k - 1), Entry(p, k - 1).value)
    else Stage(m, p, k - 1)
  }

  /** How many of the first `k` candidate entries are pushed. */
  function Pushed(p: MenuPatch, k: nat): nat
  {
    if k == 0 then 0 else Pushed(p, k - 1) + (if Entry(p, k - 1).Some? then 1 else 0)
  }

  /** The patch names at least one field the handler updates. */
  predicate Supplied(p: MenuPatch)
  {
    TruthyText(p.name) || p.description.Some? || TruthyPrice(p.price) || TruthyText(p.category) ||
    p.isVegetarian.Some? || p.isAvailable.Some? || p.imageUrl.Some?
  }

  /** The row after the patch: each supplied field takes the new value. */
  function Patched(m: MenuItem, p: MenuPatch, now: int): MenuItem
  {
    m.(name := if TruthyText(p.name) then p.name.value else m.name,
       description := if p.description.Some? then p.description.value else m.description,
       price := if TruthyPrice(p.price) then p.price.value else m.price,
       category := if TruthyText(p.category) then p.category.value else m.category,
       isVegetarian := if p.isVegetarian.Some? then p.isVegetarian.value else m.isVegetarian,
       isAvailable := if p.isAvailable.Some? then p.isAvailable.value else m.isAvailable,
       imageUrl := if p.imageUrl.Some? then p.imageUrl.value else m.imageUrl,
       updatedAt := now)
  }

  /** What the first `k` candidate entries leave in each column. */
  lemma {:induction false} StageFields(m: MenuItem, p: MenuPatch, k: nat)
    ensures var q := Stage(m, p, k);
      && q.restaurantId == m.restaurantId && q.updatedAt == m.updatedAt
      && q.name == (if k > 0 && TruthyText(p.name) then p.name.value else m.name)
      && q.description == (if k > 1 && p.description.Some? then p.description.value else m.description)
      && q.price == (if k > 2 && TruthyPrice(p.price) then p.price.value else m.price)
      && q.category == (if k > 3 && TruthyText(p.category) then p.category.value else m.category)
      && q.isVegetarian == (if k > 4 && p.isVegetarian.Some? then p.isVegetarian.value else m.isVegetarian)
      && q.isAvailable == (if k > 5 && p.isAvailable.Some? then p.isAvailable.value else m.isAvailable)
      && q.imageUrl == (if k > 6 && p.imageUrl.Some? then p.imageUrl.value else m.imageUrl)
  {
    if k > 0 {
      StageFields(m, p, k - 1);
    }
  }

  /** The SET list is empty exactly when the patch supplies nothing. */
  lemma PushedIffSupplied(p: MenuPatch)
    ensures Pushed(p, EntryCount) > 0 <==> Supplied(p)
  {
    assert Pushed(p, 7) == Pushed(p, 6) + (if Entry(p, 6).Some? then 1 else 0);
    assert Pushed(p, 6) == Pushed(p, 5) + (if Entry(p, 5).Some? then 1 else 0);
    assert Pushed(p, 5) == Pushed(p, 4) + (if Entry(p, 4).Some? then 1 else 0);
    assert Pushed(p, 4) == Pushed(p, 3) + (if Entry(p, 3).Some? then 1 else 0);
    assert Pushed(p, 3) == Pushed(p, 2) + (if Entry(p, 2).Some? then 1 else 0);
    assert Pushed(p, 2) == Pushed(p, 1) + (if Entry(p, 1).Some? then 1 else 0);
    assert Pushed(p, 1) == Pushed(p, 0) + (if Entry(p, 0).Some? then 1 else 0);
  }

  /** A field changes only when the patch supplies it, the owner never changes, every
      supplied field holds its new value, and the row is stamped with the time of the patch. */
  lemma PatchChangesOnlySupplied(m: MenuItem, p: MenuPatch, now: int)
    ensures var q := Patched(m, p, now);
      && q.restaurantId == m.restaurantId
      && (q.name != m.name ==> TruthyText(p.name))
      && (q.description != m.description ==> p.description.Some?)
      && (q.price != m.price ==> TruthyPrice(p.price))
      && (q.category != m.category ==> TruthyText(p.category))
      && (q.isVegetarian != m.isVegetarian ==> p.isVegetarian.Some?)
      && (q.isAvailable != m.isAvailable ==> p.isAvailable.Some?)
      && (q.imageUrl != m.imageUrl ==> p.imageUrl.Some?)
    ensures var q := Patched(m, p, now);
      && (TruthyText(p.name) ==> q.name == p.name.value)
      && (p.description.Some? ==> q.description == p.description.value)
      && (TruthyPrice(p.price) ==> q.price == p.price.value)
      && (TruthyText(p.category) ==> q.category == p.category.value)
      && (p.isVegetarian.Some? ==> q.isVegetarian == p.isVegetarian.value)
      && (p.isAvailable.Some? ==> q.isAvailable == p.isAvailable.value)
      && (p.imageUrl.Some? ==> q.imageUrl == p.imageUrl.value)
      && q.updatedAt == now
  {
  }

  /** Sending the same patch twice has the effect of sending it once. */
  lemma PatchIdempotent(m: MenuItem, p: MenuPatch, t1: int, t2: int)
    ensures Patched(Patched(m, p, t1), p, t2) == Patched(m, p, t2)
  {
  }

  /** The item belongs to the caller. */
  predicate OwnsItem(menuItems: map<int, MenuItem>, restaurantId: int, itemId: int)
  {
    itemId in menuItems && menuItems[itemId].restaurantId == restaurantId
  }

  /** Builds the SET list entry by entry, in the handler's order, and the row it
      produces with the new timestamp. */
  method SetList(m: MenuItem, p: MenuPatch, now: int) returns (updates: seq<FieldUpdate>, q: MenuItem)
    ensures |updates| == 0 <==> !Supplied(p)
    ensures q == Patched(m, p, now)
  {
    updates, q := PushDescriptive(m, p);
    updates, q := PushFlags(m, p, updates, q);
    StageFields(m, p, EntryCount);
    PushedIffSupplied(p);
    q := q.(updatedAt := now);
  }

  /** The first four tests of the SET list: name, description, price and category. */
  method PushDescriptive(m: MenuItem, p: MenuPatch) returns (updates: seq<FieldUpdate>, q: MenuItem)
    ensures q == Stage(m, p, 4) && |updates| == Pushed(p, 4)
  {
    updates := [];
    q := m;
    if TruthyText(p.name) {
      updates := updates + [SetName(p.name.value)];
      q := Apply(q, SetName(p.name.value));
    }
    assert q == Stage(m, p, 1) && |updates| == Pushed(p, 1);
    if p.description.Some? {
      updates := updates + [SetDescription(p.description.value)];
      q := Apply(q, SetDescription(p.description.value));
    }
    assert q == Stage(m, p, 2) && |updates| == Pushed(p, 2);
    if TruthyPrice(p.price) {
      updates := updates + [SetPrice(p.price.value)];
      q := Apply(q, SetPrice(p.price.value));
    }
    assert q == Stage(m, p, 3) && |updates| == Pushed(p, 3);
    if TruthyText(p.category) {
      updates := updates + [SetCategory(p.category.value)];
      q := Apply(q, SetCategory(p.category.value));
    }
  }

  /** The last three tests of the SET list: the vegetarian and availability flags and
      the image. */
  method PushFlags(ghost m: MenuItem, p: MenuPatch, updates0: seq<FieldUpdate>, q0: MenuItem)
    returns (updates: seq<FieldUpdate>, q: MenuItem)
    requires q0 == Stage(m, p, 4) && |updates0| == Pushed(p, 4)
    ensures q == Stage(m, p, 7) && |updates| == Pushed(p, 7)
  {
    updates := updates0;
    q := q0;
    if p.isVegetarian.Some? {
      updates := updates + [SetVegetarian(p.isVegetarian.value)];
      q := Apply(q, SetVegetarian(p.isVegetarian.value));
    }
    assert q == Stage(m, p, 5) && |updates| == Pushed(p, 5);
    if p.isAvailable.Some? {
      updates := updates + [SetAvailable(p.isAvailable.value)];
      q := Apply(q, SetAvailable(p.isAvailable.value));
    }
    assert q == Stage(m, p, 6) && |updates| == Pushed(p, 6);
    if p.imageUrl.Some? {
      updates := updates + [SetImageUrl(p.imageUrl.value)];
      q := Apply(q, SetImageUrl(p.imageUrl.value));
    }
  }

  /** PUT /menu/:item_id. Ownership is checked first (404), then the SET list is built
      entry by entry; an empty list is refused (400). */
  method UpdateMenuItem(db: Db, restaurantId: int, itemId: int, p: MenuPatch, now: int) returns (r: Result<MenuItem>)
    modifies db`menuItems
    ensures r.Ok? <==> OwnsItem(old(db.menuItems), restaurantId, itemId) && Supplied(p)
    ensures r.Err? ==> db.menuItems == old(db.menuItems)
    ensures r.Err? ==> r.error == if !OwnsItem(old(db.menuItems), restaurantId, itemId) then NotFound else NoFieldsToUpdate
    ensures r.Ok? ==>
      && r.value == Patched(old(db.menuItems)[itemId], p, now)
      && db.menuItems == old(db.menuItems)[itemId := r.value]
  {
    if itemId !in db.menuItems || db.menuItems[itemId].restaurantId != restaurantId {
      return Err(NotFound);
    }
    var m := db.menuItems[itemId];
    var updates, q := SetList(m, p, now);
    if |updates| == 0 {
      return Err(NoFieldsToUpdate);
    }
    db.menuItems := db.menuItems[itemId := q];
    r := Ok(q);
  }

  // ---------------------------------------------------------------- toggling and deleting

  /** The item after NOT is_available: the owner, the descriptive fields, the price and the
      vegetarian flag are kept. */
  function ToggledItem(m: MenuItem, now: int): (q: MenuItem)
    ensures q.isAvailable != m.isAvailable && q.updatedAt == now
    ensures q.restaurantId == m.restaurantId && q.name == m.name && q.price == m.price
    ensures q.description == m.description && q.category == m.category
    ensures q.isVegetarian == m.isVegetarian && q.imageUrl == m.imageUrl
  {
    m.(isAvailable := !m.isAvailable, updatedAt := now)
  }

  /** PATCH /menu/:item_id/toggle-availability: only the caller's own item (404 otherwise); the answer is
      the new availability. */
  method ToggleItemAvailability(db: Db, restaurantId: int, itemId: int, now: int) returns (r: Result<bool>)
    modifies db`menuItems
    ensures r.Ok? <==> OwnsItem(old(db.menuItems), restaurantId, itemId)
    ensures r.Err? ==> r.error == NotFound && db.menuItems == old(db.menuItems)
    ensures r.Ok? ==>
      && db.menuItems == old(db.menuItems)[itemId := ToggledItem(old(db.menuItems)[itemId], now)]
      && r.value == !old(db.menuItems)[itemId].isAvailable
  {
    if itemId !in db.menuItems || db.menuItems[itemId].restaurantId != restaurantId {
      return Err(NotFound);
    }
    var q := ToggledItem(db.menuItems[itemId], now);
    db.menuItems := db.menuItems[itemId := q];
    r := Ok(q.isAvailable);
  }

  /** Two toggles restore the item, apart from the time of the last update. */
  lemma ToggleItemTwice(m: MenuItem, t1: int, t2: int)
    ensures ToggledItem(ToggledItem(m, t1), t2) == m.(updatedAt := t2)
  {
  }

  /** DELETE /menu/:item_id: only the caller's own item (404 otherwise). */
  method DeleteMenuItem(db: Db, restaurantId: int, itemId: int) returns (r: Result<()>)
    modifies db`menuItems
    ensures r.Ok? <==> OwnsItem(old(db.menuItems), restaurantId, itemId)
    ensures r.Err? ==> r.error == NotFound && db.menuItems == old(db.menuItems)
    ensures r.Ok? ==> db.menuItems == old(db.menuItems) - {itemId}
  {
    if itemId !in db.menuItems || db.menuItems[itemId].restaurantId != restaurantId {
      return Err(NotFound);
    }
    db.menuItems := db.menuItems - {itemId};
    r := Ok(());
  }

  // ---------------------------------------------------------------- the public menu

  /** The query string of GET /menu/restaurant/:restaurant_id; the flags are the raw text. */
  datatype MenuQuery = MenuQuery(category: Option<string>, vegetarian: Option<string>, available: Option<string>)

  /** A row of the restaurant's menu that passes every filter given: category by
      case-insensitive equality when non-empty, the flags compared with the text "true". */
  predicate MenuMatches(restaurantId: int, q: MenuQuery, m: MenuItem)
  {
    && m.restaurantId == restaurantId
    && (TruthyText(q.category) ==> EqualsIgnoringCase(m.category, q.category.value))
    && (q.vegetarian.Some? ==> m.isVegetarian == (q.vegetarian.value == "true"))
    && (q.available.Some? ==> m.isAvailable == (q.available.value == "true"))
  }

  function OnMenu(restaurantId: int, q: MenuQuery): ((int, MenuItem)) -> bool
  {
    (e: (int, MenuItem)) => MenuMatches(restaurantId, q, e.1)
  }

  /** ORDER BY category, name. */
  predicate ByCategoryThenName(a: (int, MenuItem), b: (int, MenuItem))
  {
    if a.1.category != b.1.category then Listing.StrLe(a.1.category, b.1.category)
    else Listing.StrLe(a.1.name, b.1.name)
  }

  lemma CategoryThenNameOrders()
    ensures Listing.TotalPreorder(ByCategoryThenName)
  {
    forall a, b ensures ByCategoryThenName(a, b) || ByCategoryThenName(b, a) {
      Listing.StrLeTotal(a.1.category, b.1.category);
      Listing.StrLeTotal(a.1.name, b.1.name);
    }
    forall a, b, c | ByCategoryThenName(a, b) && ByCategoryThenName(b, c)
      ensures ByCategoryThenName(a, c)
    {
      CategoryThenNameTransitive(a.1, b.1, c.1);
    }
  }

  lemma CategoryThenNameTransitive(a: MenuItem, b: MenuItem, c: MenuItem)
    requires a.category != b.category ==> Listing.StrLe(a.category, b.category)
    requires a.category == b.category ==> Listing.StrLe(a.name, b.name)
    requires b.category != c.category ==> Listing.StrLe(b.category, c.category)
    requires b.category == c.category ==> Listing.StrLe(b.name, c.name)
    ensures a.category != c.category ==> Listing.StrLe(a.category, c.category)
    ensures a.category == c.category ==> Listing.StrLe(a.name, c.name)
  {
    if a.category == b.category && b.category == c.category {
      Listing.StrLeTransitive(a.name, b.name, c.name);
    } else if a.category != b.category && b.category != c.category {
      Listing.StrLeTransitive(a.category, b.category, c.category);
      if a.category == c.category {
        Listing.StrLeAntisymmetric(a.category, b.category);
      }
    }
  }

  /** GET /menu/restaurant/:restaurant_id. */
  function RestaurantMenu(menuItems: map<int, MenuItem>, restaurantId: int, q: MenuQuery): seq<(int, MenuItem)>
  {
    CategoryThenNameOrders();
    Listing.Sort(Listing.Filter(Listing.Entries(menuItems), OnMenu(restaurantId, q)), ByCategoryThenName)
  }

  /** The menu lists every item of the restaurant that passes the filters, each once, and
      nothing else, by category and then by name. */
  lemma RestaurantMenuExact(menuItems: map<int, MenuItem>, restaurantId: int, q: MenuQuery)
    ensures var r := RestaurantMenu(menuItems, restaurantId, q);
      && Listing.SortedBy(r, ByCategoryThenName)
      && (forall e :: e in r <==> e.0 in menuItems && e.1 == menuItems[e.0] && MenuMatches(restaurantId, q, e.1))
      && (forall e :: multiset(r)[e] <= 1)
  {
    CategoryThenNameOrders();
    var es := Listing.Entries(menuItems);
    Listing.SortedFilter(es, OnMenu(restaurantId, q), ByCategoryThenName);
    forall e ensures e in es <==> e.0 in menuItems && e.1 == menuItems[e.0] {
      Listing.InEntries(menuItems, e);
    }
    forall e ensures multiset(RestaurantMenu(menuItems, restaurantId, q))[e] <= 1 {
      Listing.EntriesOnce(menuItems, e);
    }
  }

  /** Without filters the menu is the restaurant's whole menu. */
  lemma UnfilteredMenuIsWholeMenu(menuItems: map<int, MenuItem>, restaurantId: int, id: int)
    requires OwnsItem(menuItems, restaurantId, id)
    ensures (id, menuItems[id]) in RestaurantMenu(menuItems, restaurantId, MenuQuery(None, None, None))
  {
    RestaurantMenuExact(menuItems, restaurantId, MenuQuery(None, None, None));
  }
}
