/** The restaurant handlers of backend/controllers/restaurantController.js that carry
    logic: the customers' restaurant listing with its filters, order and pagination, and
    the owner's profile patch. */
module Restaurants {
  import opened Common
  import opened Tables
  import Listing

  // ---------------------------------------------------------------- the listing

  /** The filters of GET /restaurants. `minRating` is the number the text reads as. */
  datatype RestaurantFilter = RestaurantFilter(
    city: Option<string>,
    cuisine: Option<string>,
    minRating: Option<real>,
    search: Option<string>)

  /** The query string of GET /restaurants; absent paging parameters take their defaults. */
  datatype RestaurantQuery = RestaurantQuery(filter: RestaurantFilter, limit: Option<nat>, offset: Option<nat>)

  const DefaultLimit: nat := 20

  function Limit(q: RestaurantQuery): nat
  {
    if q.limit.Some? then q.limit.value else DefaultLimit
  }

  function Offset(q: RestaurantQuery): nat
  {
    if q.offset.Some? then q.offset.value else 0
  }

  /** An active restaurant passing every filter given: city by case-insensitive equality,
      cuisine and name by case-insensitive substring, rating at least the minimum (the
      stored rating is in tenths). */
  predicate Listed(q: RestaurantFilter, r: Restaurant)
  {
    && r.isActive
    && (TruthyText(q.city) ==> EqualsIgnoringCase(r.city, q.city.value))
    && (TruthyText(q.cuisine) ==> ContainsIgnoringCase(r.cuisineType, q.cuisine.value))
    && (q.minRating.Some? ==> r.rating as real >= 10.0 * q.minRating.value)
    && (TruthyText(q.search) ==> ContainsIgnoringCase(r.name, q.search.value))
  }

  function ListedBy(q: RestaurantFilter): ((int, Restaurant)) -> bool
  {
    (e: (int, Restaurant)) => Listed(q, e.1)
  }

  function IsActive(): ((int, Restaurant)) -> bool
  {
    (e: (int, Restaurant)) => e.1.isActive
  }

  /** ORDER BY rating DESC, total_ratings DESC. */
  predicate BestRatedFirst(a: (int, Restaurant), b: (int, Restaurant))
  {
    a.1.rating > b.1.rating || (a.1.rating == b.1.rating && a.1.totalRatings >= b.1.totalRatings)
  }

  lemma BestRatedFirstOrders()
    ensures Listing.TotalPreorder(BestRatedFirst)
  {
  }

  /** One page of the listing and the number of active restaurants. */
  datatype RestaurantPage = RestaurantPage(rows: seq<(int, Restaurant)>, total: nat)

  /** The restaurants passing the filters, best rated first, before paging. */
  function Ranked(restaurants: map<int, Restaurant>, q: RestaurantFilter): seq<(int, Restaurant)>
  {
    BestRatedFirstOrders();
    Listing.Sort(Listing.Filter(Listing.Entries(restaurants), ListedBy(q)), BestRatedFirst)
  }

  /** GET /restaurants. */
  function AllRestaurants(restaurants: map<int, Restaurant>, q: RestaurantQuery): RestaurantPage
  {
    RestaurantPage(
      Listing.Page(Ranked(restaurants, q.filter), Offset(q), Limit(q)),
      |Listing.Filter(Listing.Entries(restaurants), IsActive())|)
  }

  /** The ranking holds every restaurant passing the filters, each once, and nothing else,
      best rated first. */
  lemma RankedExact(restaurants: map<int, Restaurant>, q: RestaurantFilter)
    ensures var r := Ranked(restaurants, q);
      && Listing.SortedBy(r, BestRatedFirst)
      && (forall e :: e in r <==> e.0 in restaurants && e.1 == restaurants[e.0] && Listed(q, e.1))
      && (forall e :: multiset(r)[e] <= 1)
  {
    BestRatedFirstOrders();
    var es := Listing.Entries(restaurants);
    Listing.SortedFilter(es, ListedBy(q), BestRatedFirst);
    forall e ensures e in es <==> e.0 in restaurants && e.1 == restaurants[e.0] {
      Listing.InEntries(restaurants, e);
    }
    forall e ensures multiset(Ranked(restaurants, q))[e] <= 1 {
      Listing.EntriesOnce(restaurants, e);
    }
  }

  /** A page holds at most `limit` active restaurants passing every filter, best rated
      first. */
  lemma AllRestaurantsSound(restaurants: map<int, Restaurant>, q: RestaurantQuery)
    ensures var p := AllRestaurants(restaurants, q);
      && |p.rows| <= Limit(q)
      && Listing.SortedBy(p.rows, BestRatedFirst)
      && (forall e :: e in p.rows ==> e.0 in restaurants && e.1 == restaurants[e.0] && Listed(q.filter, e.1))
  {
    RankedExact(restaurants, q.filter);
    Listing.PageOfSorted(Ranked(restaurants, q.filter), BestRatedFirst, Offset(q), Limit(q));
  }

  /** On the first page a restaurant passing the filters is left out only when the page
      is full and every listed restaurant ranks at least as high. */
  lemma FirstPageComplete(restaurants: map<int, Restaurant>, q: RestaurantQuery, id: int)
    requires Offset(q) == 0
    requires id in restaurants && Listed(q.filter, restaurants[id])
    requires (id, restaurants[id]) !in AllRestaurants(restaurants, q).rows
    ensures |AllRestaurants(restaurants, q).rows| == Limit(q)
    ensures forall e :: e in AllRestaurants(restaurants, q).rows ==> BestRatedFirst(e, (id, restaurants[id]))
  {
    RankedExact(restaurants, q.filter);
    Listing.TopK(Ranked(restaurants, q.filter), BestRatedFirst, Limit(q));
  }

  /** `total` is the number of active restaurants, whatever the filters and paging. */
  lemma TotalCountsActive(restaurants: map<int, Restaurant>, q: RestaurantQuery)
    ensures AllRestaurants(restaurants, q).total == |set k | k in restaurants && restaurants[k].isActive|
  {
    ActiveCount(restaurants);
  }

  lemma ActiveCount(restaurants: map<int, Restaurant>)
    ensures |Listing.Filter(Listing.Entries(restaurants), IsActive())|
      == |set k | k in restaurants && restaurants[k].isActive|
  {
    Listing.FilterEntriesCount(restaurants, IsActive());
    ActiveKeys(restaurants);
  }

  lemma ActiveKeys(restaurants: map<int, Restaurant>)
    ensures (set k | k in restaurants && IsActive()((k, restaurants[k])))
      == set k | k in restaurants && restaurants[k].isActive
  {
    var listed := set k | k in restaurants && IsActive()((k, restaurants[k]));
    var target := set k | k in restaurants && restaurants[k].isActive;
    forall k ensures k in listed <==> k in target {
      if k in restaurants {
        assert IsActive()((k, restaurants[k])) == restaurants[k].isActive;
      }
    }
  }

  /** A page never holds more rows than `total` counts. */
  lemma RowsWithinTotal(restaurants: map<int, Restaurant>, q: RestaurantQuery)
    ensures |AllRestaurants(restaurants, q).rows| <= AllRestaurants(restaurants, q).total
  {
    var ranked := Ranked(restaurants, q.filter);
    RankedWithinActive(restaurants, q.filter);
    assert |Listing.Page(ranked, Offset(q), Limit(q))| <= |ranked|;
  }

  /** No more restaurants pass the filters than are active. */
  lemma RankedWithinActive(restaurants: map<int, Restaurant>, filter: RestaurantFilter)
    ensures |Ranked(restaurants, filter)| <= |Listing.Filter(Listing.Entries(restaurants), IsActive())|
  {
    var es := Listing.Entries(restaurants);
    forall e | ListedBy(filter)(e) ensures IsActive()(e) {
    }
    Listing.FilterStricter(es, ListedBy(filter), IsActive());
    assert |Ranked(restaurants, filter)| == |Listing.Filter(es, ListedBy(filter))|;
  }

  // ---------------------------------------------------------------- the profile patch

  /** The body of PUT /restaurants/me/profile. */
  datatype ProfilePatch = ProfilePatch(
    name: Option<string>,
    phone: Option<string>,
    address: Option<string>,
    city: Option<string>,
    cuisineType: Option<string>,
    openingTime: Option<string>,
    closingTime: Option<string>,
    imageUrl: Option<string>)

  /** One `column = value` entry of the SET list. */
  datatype ProfileUpdate =
    | SetName(name: string)
    | SetPhone(phone: string)
    | SetAddress(address: string)
    | SetCity(city: string)
    | SetCuisineType(cuisineType: string)
    | SetOpeningTime(openingTime: string)
    | SetClosingTime(closingTime: string)
    | SetImageUrl(imageUrl: string)

  function Apply(r: Restaurant, u: ProfileUpdate): Restaurant
  {
    match u
    case SetName(v) => r.(name := v)
    case SetPhone(v) => r.(phone := v)
    case SetAddress(v) => r.(address := v)
    case SetCity(v) => r.(city := v)
    case SetCuisineType(v) => r.(cuisineType := v)
    case SetOpeningTime(v) => r.(openingTime := v)
    case SetClosingTime(v) => r.(closingTime := v)
    case SetImageUrl(v) => r.(imageUrl := Some(v))
  }

  /** The k-th entry the handler may push onto the SET list: each field when truthy. */
  function Entry(p: ProfilePatch, k: nat): Option<ProfileUpdate>
  {
    if k == 0 then (if TruthyText(p.name) then Some(SetName(p.name.value)) else None)
    else if k == 1 then (if TruthyText(p.phone) then Some(SetPhone(p.phone.value)) else None)
    else if k == 2 then (if TruthyText(p.address) then Some(SetAddress(p.address.value)) else None)
    else if k == 3 then (if TruthyText(p.city) then Some(SetCity(p.city.value)) else None)
    else if k == 4 then (if TruthyText(p.cuisineType) then Some(SetCuisineType(p.cuisineType.value)) else None)
    else if k == 5 then (if TruthyText(p.openingTime) then Some(SetOpeningTime(p.openingTime.value)) else None)
    else if k == 6 then (if TruthyText(p.closingTime) then Some(SetClosingTime(p.closingTime.value)) else None)
    else if k == 7 then (if TruthyText(p.imageUrl) then Some(SetImageUrl(p.imageUrl.value)) else None)
    else None
  }

  const EntryCount: nat := 8

  /** The row after the first `k` candidate entries. */
  function Stage(r: Restaurant, p: ProfilePatch, k: nat): Restaurant
  {
    if k == 0 then r
    else if Entry(p, k - 1).Some? then Apply(Stage(r, p, k - 1), Entry(p, k - 1).value)
    else Stage(r, p, k - 1)
  }

  /** How many of the first `k` candidate entries are pushed. */
  function Pushed(p: ProfilePatch, k: nat): nat
  {
    if k == 0 then 0 else Pushed(p, k - 1) + (if Entry(p, k - 1).Some? then 1 else 0)
  }

  /** The patch names at least one field with a non-empty value. */
  predicate Supplied(p: ProfilePatch)
  {
    TruthyText(p.name) || TruthyText(p.phone) || TruthyText(p.address) || TruthyText(p.city) ||
    TruthyText(p.cuisineType) || TruthyText(p.openingTime) || TruthyText(p.closingTime) || TruthyText(p.imageUrl)
  }

  /** The row after the patch: each non-empty field takes the new value. */
  function Patched(r: Restaurant, p: ProfilePatch, now: int): Restaurant
  {
    r.(name := if TruthyText(p.name) then p.name.value else r.name,
       phone := if TruthyText(p.phone) then p.phone.value else r.phone,
       address := if TruthyText(p.address) then p.address.value else r.address,
       city := if TruthyText(p.city) then p.city.value else r.city,
       cuisineType := if TruthyText(p.cuisineType) then p.cuisineType.value else r.cuisineType,
       openingTime := if TruthyText(p.openingTime) then p.openingTime.value else r.openingTime,
       closingTime := if TruthyText(p.closingTime) then p.closingTime.value else r.closingTime,
       imageUrl := if TruthyText(p.imageUrl) then p.imageUrl else r.imageUrl,
       updatedAt := now)
  }

  lemma {:induction false} StageFields(r: Restaurant, p: ProfilePatch, k: nat)
    ensures var q := Stage(r, p, k);
      && q.rating == r.rating && q.totalRatings == r.totalRatings
      && q.isActive == r.isActive && q.updatedAt == r.updatedAt
      && q.name == (if k > 0 && TruthyText(p.name) then p.name.value else r.name)
      && q.phone == (if k > 1 && TruthyText(p.phone) then p.phone.value else r.phone)
      && q.address == (if k > 2 && TruthyText(p.address) then p.address.value else r.address)
      && q.city == (if k > 3 && TruthyText(p.city) then p.city.value else r.city)
      && q.cuisineType == (if k > 4 && TruthyText(p.cuisineType) then p.cuisineType.value else r.cuisineType)
      && q.openingTime == (if k > 5 && TruthyText(p.openingTime) then p.openingTime.value else r.openingTime)
      && q.closingTime == (if k > 6 && TruthyText(p.closingTime) then p.closingTime.value else r.closingTime)
      && q.imageUrl == (if k > 7 && TruthyText(p.imageUrl) then p.imageUrl else r.imageUrl)
  {
    if k > 0 {
      StageFields(r, p, k - 1);
    }
  }

  /** The SET list is empty exactly when the patch supplies nothing. */
  lemma PushedIffSupplied(p: ProfilePatch)
    ensures Pushed(p, EntryCount) > 0 <==> Supplied(p)
  {
    assert Pushed(p, 8) == Pushed(p, 7) + (if Entry(p, 7).Some? then 1 else 0);
    assert Pushed(p, 7) == Pushed(p, 6) + (if Entry(p, 6).Some? then 1 else 0);
    assert Pushed(p, 6) == Pushed(p, 5) + (if Entry(p, 5).Some? then 1 else 0);
    assert Pushed(p, 5) == Pushed(p, 4) + (if Entry(p, 4).Some? then 1 else 0);
    assert Pushed(p, 4) == Pushed(p, 3) + (if Entry(p, 3).Some? then 1 else 0);
    assert Pushed(p, 3) == Pushed(p, 2) + (if Entry(p, 2).Some? then 1 else 0);
    assert Pushed(p, 2) == Pushed(p, 1) + (if Entry(p, 1).Some? then 1 else 0);
    assert Pushed(p, 1) == Pushed(p, 0) + (if Entry(p, 0).Some? then 1 else 0);
  }

  /** The profile patch never touches the rating aggregates or the active flag, and a field
      changes only when the patch gives it a non-empty value. */
  lemma PatchKeepsRatings(r: Restaurant, p: ProfilePatch, now: int)
    ensures var q := Patched(r, p, now);
      && q.rating == r.rating && q.totalRatings == r.totalRatings && q.isActive == r.isActive
      && (q.name != r.name ==> TruthyText(p.name))
      && (q.phone != r.phone ==> TruthyText(p.phone))
      && (q.city != r.city ==> TruthyText(p.city))
      && (q.imageUrl != r.imageUrl ==> q.imageUrl == p.imageUrl && TruthyText(p.imageUrl))
  {
  }

  /** Builds the SET list entry by entry, in the handler's order, and the row it
      produces before the timestamp. */
  method SetList(r: Restaurant, p: ProfilePatch) returns (updates: seq<ProfileUpdate>, q: Restaurant)
    ensures |updates| == 0 <==> !Supplied(p)
    ensures q == Stage(r, p, EntryCount)
  {
    updates, q := PushContact(r, p);
    updates, q := PushService(r, p, updates, q);
    PushedIffSupplied(p);
  }

  /** The first four tests of the SET list: name, phone, address and city. */
  method PushContact(r: Restaurant, p: ProfilePatch) returns (updates: seq<ProfileUpdate>, q: Restaurant)
    ensures q == Stage(r, p, 4) && |updates| == Pushed(p, 4)
  {
    updates := [];
    q := r;
    if TruthyText(p.name) {
      updates := updates + [SetName(p.name.value)];
      q := Apply(q, SetName(p.name.value));
    }
    assert q == Stage(r, p, 1) && |updates| == Pushed(p, 1);
    if TruthyText(p.phone) {
      updates := updates + [SetPhone(p.phone.value)];
      q := Apply(q, SetPhone(p.phone.value));
    }
    assert q == Stage(r, p, 2) && |updates| == Pushed(p, 2);
    if TruthyText(p.address) {
      updates := updates + [SetAddress(p.address.value)];
      q := Apply(q, SetAddress(p.address.value));
    }
    assert q == Stage(r, p, 3) && |updates| == Pushed(p, 3);
    if TruthyText(p.city) {
      updates := updates + [SetCity(p.city.value)];
      q := Apply(q, SetCity(p.city.value));
    }
  }

  /** The last four tests of the SET list: cuisine, opening and closing time, image. */
  method PushService(ghost r: Restaurant, p: ProfilePatch, updates0: seq<ProfileUpdate>, q0: Restaurant)
    returns (updates: seq<ProfileUpdate>, q: Restaurant)
    requires q0 == Stage(r, p, 4) && |updates0| == Pushed(p, 4)
    ensures q == Stage(r, p, 8) && |updates| == Pushed(p, 8)
  {
    updates := updates0;
    q := q0;
    if TruthyText(p.cuisineType) {
      updates := updates + [SetCuisineType(p.cuisineType.value)];
      q := Apply(q, SetCuisineType(p.cuisineType.value));
    }
    assert q == Stage(r, p, 5) && |updates| == Pushed(p, 5);
    if TruthyText(p.openingTime) {
      updates := updates + [SetOpeningTime(p.openingTime.value)];
      q := Apply(q, SetOpeningTime(p.openingTime.value));
    }
    assert q == Stage(r, p, 6) && |updates| == Pushed(p, 6);
    if TruthyText(p.closingTime) {
      updates := updates + [SetClosingTime(p.closingTime.value)];
      q := Apply(q, SetClosingTime(p.closingTime.value));
    }
    assert q == Stage(r, p, 7) && |updates| == Pushed(p, 7);
    if TruthyText(p.imageUrl) {
      updates := updates + [SetImageUrl(p.imageUrl.value)];
      q := Apply(q, SetImageUrl(p.imageUrl.value));
    }
  }

  /** PUT /restaurants/me/profile on the caller's own row. A patch with no non-empty field is
      refused (400). An UPDATE that matches no row still answers success, with no row. */
  method UpdateRestaurantProfile(db: Db, restaurantId: int, p: ProfilePatch, now: int)
    returns (r: Result<Option<Restaurant>>)
    modifies db`restaurants
    ensures r.Ok? <==> Supplied(p)
    ensures r.Err? ==> r.error == NoFieldsToUpdate && db.restaurants == old(db.restaurants)
    ensures r.Ok? && restaurantId !in old(db.restaurants) ==> r.value.None? && db.restaurants == old(db.restaurants)
    ensures r.Ok? && restaurantId in old(db.restaurants) ==>
      && r.value == Some(Patched(old(db.restaurants)[restaurantId], p, now))
      && db.restaurants == old(db.restaurants)[restaurantId := r.value.value]
  {
    var row := if restaurantId in db.restaurants then db.restaurants[restaurantId]
               else Restaurant("", "", "", "", "", "", "", None, 0, 0, false, now);
    var updates, q := SetList(row, p);
    StageFields(row, p, EntryCount);
    if |updates| == 0 {
      return Err(NoFieldsToUpdate);
    }
    if restaurantId !in db.restaurants {
      return Ok(None);
    }
    q := q.(updatedAt := now);
    db.restaurants := db.restaurants[restaurantId := q];
    r := Ok(Some(q));
  }
}
