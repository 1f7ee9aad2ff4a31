/** The address book of backend/controllers/addressController.js: listing, adding,
    patching and deleting a customer's delivery addresses, with at most one default
    address per customer. */
module Addresses {
  import opened Common
  import opened Tables
  import Listing

  /** A present, non-zero coordinate. */
  predicate TruthyCoordinate(x: Option<real>)
  {
    x.Some? && x.value != 0.0
  }

  /** No customer has two default addresses. */
  predicate AtMostOneDefault(addresses: map<int, Address>)
  {
    forall a, b ::
      (a in addresses && b in addresses && addresses[a].userId == addresses[b].userId &&
       addresses[a].isDefault && addresses[b].isDefault) ==> a == b
  }

  /** `id` is the customer's one default address. */
  predicate OnlyDefault(addresses: map<int, Address>, userId: int, id: int)
  {
    && id in addresses && addresses[id].userId == userId && addresses[id].isDefault
    && forall k :: k in addresses && addresses[k].userId == userId && addresses[k].isDefault ==> k == id
  }

  /** UPDATE addresses SET is_default = false WHERE user_id = the customer. */
  function ClearedDefaults(addresses: map<int, Address>, userId: int): (r: map<int, Address>)
    ensures r.Keys == addresses.Keys
    ensures forall k :: k in r && addresses[k].userId != userId ==> r[k] == addresses[k]
    ensures forall k :: k in r && addresses[k].userId == userId ==> !r[k].isDefault
    ensures forall k :: k in r ==> r[k].(isDefault := addresses[k].isDefault) == addresses[k]
  {
    map k | k in addresses :: if addresses[k].userId == userId then addresses[k].(isDefault := false) else addresses[k]
  }

  /** Clearing one customer's defaults keeps every other customer's at most one default. */
  lemma ClearedKeepsAtMostOne(addresses: map<int, Address>, userId: int)
    requires AtMostOneDefault(addresses)
    ensures AtMostOneDefault(ClearedDefaults(addresses, userId))
    ensures forall k :: k in addresses && addresses[k].userId == userId ==> !ClearedDefaults(addresses, userId)[k].isDefault
  {
  }

  method ClearDefaults(db: Db, userId: int)
    modifies db`addresses
    ensures db.addresses == ClearedDefaults(old(db.addresses), userId)
  {
    db.addresses := ClearedDefaults(db.addresses, userId);
  }

  /** A row in which `id` becomes the customer's default keeps at most one default per
      customer once that customer's other defaults are cleared. */
  lemma DefaultAfterClear(addresses: map<int, Address>, userId: int, id: int, a: Address)
    requires AtMostOneDefault(addresses) && a.userId == userId
    ensures AtMostOneDefault(ClearedDefaults(addresses, userId)[id := a])
    ensures a.isDefault ==> OnlyDefault(ClearedDefaults(addresses, userId)[id := a], userId, id)
  {
  }

  /** A row that is not a default keeps at most one default per customer. */
  lemma NonDefaultKeepsAtMostOne(addresses: map<int, Address>, id: int, a: Address)
    requires AtMostOneDefault(addresses) && !a.isDefault
    ensures AtMostOneDefault(addresses[id := a])
  {
  }

  /** A customer's default row replaced by another row of the same customer keeps at most
      one default per customer. */
  lemma ReplaceDefaultKeepsAtMostOne(addresses: map<int, Address>, id: int, a: Address)
    requires AtMostOneDefault(addresses) && id in addresses
    requires addresses[id].isDefault && a.userId == addresses[id].userId
    ensures AtMostOneDefault(addresses[id := a])
  {
  }

  // ---------------------------------------------------------------- adding

  /** The body of POST /addresses. */
  datatype AddressRequest = AddressRequest(
    line1: string,
    line2: Option<string>,
    city: string,
    state: string,
    pincode: string,
    latitude: Option<real>,
    longitude: Option<real>,
    isDefault: Option<bool>)

  /** The row POST /addresses inserts. */
  function NewAddress(userId: int, req: AddressRequest, now: int): (a: Address)
    ensures a.userId == userId && a.line1 == req.line1 && a.city == req.city
    ensures a.state == req.state && a.pincode == req.pincode
    ensures a.isDefault <==> req.isDefault == Some(true)
    ensures a.line2.Some? <==> TruthyText(req.line2)
    ensures a.latitude.Some? <==> TruthyCoordinate(req.latitude)
    ensures a.longitude.Some? <==> TruthyCoordinate(req.longitude)
    ensures a.line2.Some? ==> a.line2 == req.line2
    ensures a.latitude.Some? ==> a.latitude == req.latitude
    ensures a.longitude.Some? ==> a.longitude == req.longitude
    ensures a.createdAt == now
  {
    Address(userId, req.line1, if TruthyText(req.line2) then req.line2 else None,
      req.city, req.state, req.pincode,
      if TruthyCoordinate(req.latitude) then req.latitude else None,
      if TruthyCoordinate(req.longitude) then req.longitude else None,
      req.isDefault == Some(true), now)
  }

  /** POST /addresses. A default address first clears the customer's other defaults, so
      it ends up the customer's only default. */
  method AddAddress(db: Db, userId: int, req: AddressRequest, now: int) returns (id: int)
    requires db.Valid()
    modifies db`addresses, db`nextId
    ensures db.Valid()
    ensures id !in old(db.addresses)
    ensures db.addresses == (if req.isDefault == Some(true) then ClearedDefaults(old(db.addresses), userId) else old(db.addresses))
                            [id := NewAddress(userId, req, now)]
    ensures old(AtMostOneDefault(db.addresses)) ==> AtMostOneDefault(db.addresses)
    ensures req.isDefault == Some(true) ==> OnlyDefault(db.addresses, userId, id)
    ensures forall k :: k in old(db.addresses) && old(db.addresses)[k].userId != userId ==> db.addresses[k] == old(db.addresses)[k]
  {
    ghost var before := db.addresses;
    if req.isDefault == Some(true) {
      ClearDefaults(db, userId);
    }
    var a := NewAddress(userId, req, now);
    id := db.FreshId();
    db.addresses := db.addresses[id := a];
    if AtMostOneDefault(before) {
      if req.isDefault == Some(true) {
        DefaultAfterClear(before, userId, id, a);
      } else {
        NonDefaultKeepsAtMostOne(before, id, a);
      }
    }
  }

  // ---------------------------------------------------------------- patching

  /** The body of PUT /addresses/:address_id; a present line 2 may be null. */
  datatype AddressPatch = AddressPatch(
    line1: Option<string>,
    line2: Option<Option<string>>,
    city: Option<string>,
    state: Option<string>,
    pincode: Option<string>,
    isDefault: Option<bool>)

  /** One `column = value` entry of the SET list. */
  datatype AddressUpdate =
    | SetLine1(line1: string)
    | SetLine2(line2: Option<string>)
    | SetCity(city: string)
    | SetState(state: string)
    | SetPincode(pincode: string)
    | SetDefault(isDefault: bool)

  function Apply(a: Address, u: AddressUpdate): Address
  {
    match u
    case SetLine1(v) => a.(line1 := v)
    case SetLine2(v) => a.(line2 := v)
    case SetCity(v) => a.(city := v)
    case SetState(v) => a.(state := v)
    case SetPincode(v) => a.(pincode := v)
    case SetDefault(v) => a.(isDefault := v)
  }

  /** The k-th entry the handler may push onto the SET list: the texts when truthy, line 2
      and the default flag when present. */
  function Entry(p: AddressPatch, k: nat): Option<AddressUpdate>
  {
    if k == 0 then (if TruthyText(p.line1) then Some(SetLine1(p.line1.value)) else None)
    else if k == 1 then (if p.line2.Some? then Some(SetLine2(p.line2.value)) else None)
    else if k == 2 then (if TruthyText(p.city) then Some(SetCity(p.city.value)) else None)
    else if k == 3 then (if TruthyText(p.state) then Some(SetState(p.state.value)) else None)
    else if k == 4 then (if TruthyText(p.pincode) then Some(SetPincode(p.pincode.value)) else None)
    else if k == 5 then (if p.isDefault.Some? then Some(SetDefault(p.isDefault.value)) else None)
    else None
  }

  const EntryCount: nat := 6

  /** The row after the first `k` candidate entries. */
  function Stage(a: Address, p: AddressPatch, k: nat): Address
  {
    if k == 0 then a
    else if Entry(p, k - 1).Some? then Apply(Stage(a, p, k - 1), Entry(p, k - 1).value)
    else Stage(a, p, k - 1)
  }

  /** One more candidate entry: applied and counted when it is pushed. */
  lemma StageStep(a: Address, p: AddressPatch, k: nat)
    ensures Stage(a, p, k + 1) == if Entry(p, k).Some? then Apply(Stage(a, p, k), Entry(p, k).value) else Stage(a, p, k)
    ensures Pushed(p, k + 1) == Pushed(p, k) + if Entry(p, k).Some? then 1 else 0
  {
  }

  /** How many of the first `k` candidate entries are pushed. */
  function Pushed(p: AddressPatch, k: nat): nat
  {
    if k == 0 then 0 else Pushed(p, k - 1) + (if Entry(p, k - 1).Some? then 1 else 0)
  }

  /** The patch names at least one field the handler updates. */
  predicate Supplied(p: AddressPatch)
  {
    TruthyText(p.line1) || p.line2.Some? || TruthyText(p.city) || TruthyText(p.state) ||
    TruthyText(p.pincode) || p.isDefault.Some?
  }

  /** The row after the patch: each supplied field takes the new value. */
  function Patched(a: Address, p: AddressPatch): Address
  {
    a.(line1 := if TruthyText(p.line1) then p.line1.value else a.line1,
       line2 := if p.line2.Some? then p.line2.value else a.line2,
       city := if TruthyText(p.city) then p.city.value else a.city,
       state := if TruthyText(p.state) then p.state.value else a.state,
       pincode := if TruthyText(p.pincode) then p.pincode.value else a.pincode,
       isDefault := if p.isDefault.Some? then p.isDefault.value else a.isDefault)
  }

  lemma {:induction false} StageFields(a: Address, p: AddressPatch, k: nat)
    ensures var q := Stage(a, p, k);
      && q.userId == a.userId && q.createdAt == a.createdAt
      && q.latitude == a.latitude && q.longitude == a.longitude
      && q.line1 == (if k > 0 && TruthyText(p.line1) then p.line1.value else a.line1)
      && q.line2 == (if k > 1 && p.line2.Some? then p.line2.value else a.line2)
      && q.city == (if k > 2 && TruthyText(p.city) then p.city.value else a.city)
      && q.state == (if k > 3 && TruthyText(p.state) then p.state.value else a.state)
      && q.pincode == (if k > 4 && TruthyText(p.pincode) then p.pincode.value else a.pincode)
      && q.isDefault == (if k > 5 && p.isDefault.Some? then p.isDefault.value else a.isDefault)
  {
    if k > 0 {
      StageFields(a, p, k - 1);
    }
  }

  /** The SET list is empty exactly when the patch supplies nothing. */
  lemma PushedIffSupplied(p: AddressPatch)
    ensures Pushed(p, EntryCount) > 0 <==> Supplied(p)
  {
    assert Pushed(p, 6) == Pushed(p, 5) + (if Entry(p, 5).Some? then 1 else 0);
    assert Pushed(p, 5) == Pushed(p, 4) + (if Entry(p, 4).Some? then 1 else 0);
    assert Pushed(p, 4) == Pushed(p, 3) + (if Entry(p, 3).Some? then 1 else 0);
    assert Pushed(p, 3) == Pushed(p, 2) + (if Entry(p, 2).Some? then 1 else 0);
    assert Pushed(p, 2) == Pushed(p, 1) + (if Entry(p, 1).Some? then 1 else 0);
    assert Pushed(p, 1) == Pushed(p, 0) + (if Entry(p, 0).Some? then 1 else 0);
  }

  /** A patch changes only the fields it supplies, never the owner. */
  lemma PatchChangesOnlySupplied(a: Address, p: AddressPatch)
    ensures var q := Patched(a, p);
      && q.userId == a.userId && q.createdAt == a.createdAt
      && (q.line1 != a.line1 ==> TruthyText(p.line1))
      && (q.line2 != a.line2 ==> p.line2.Some?)
      && (q.city != a.city ==> TruthyText(p.city))
      && (q.state != a.state ==> TruthyText(p.state))
      && (q.pincode != a.pincode ==> TruthyText(p.pincode))
      && (q.isDefault != a.isDefault ==> p.isDefault.Some?)
  {
  }

  /** The address belongs to the customer. */
  predicate OwnsAddress(addresses: map<int, Address>, userId: int, id: int)
  {
    id in addresses && addresses[id].userId == userId
  }

  /** The table after a successful patch: a truthy default flag first clears the
      customer's defaults, then the row is patched. */
  function AfterPatch(addresses: map<int, Address>, userId: int, id: int, p: AddressPatch): map<int, Address>
    requires id in addresses
  {
    var cleared := if p.isDefault == Some(true) then ClearedDefaults(addresses, userId) else addresses;
    cleared[id := Patched(cleared[id], p)]
  }

  /** A patch keeps at most one default per customer, and a patch making the address the
      default makes it the customer's only one. */
  lemma PatchKeepsAtMostOne(addresses: map<int, Address>, userId: int, id: int, p: AddressPatch)
    requires OwnsAddress(addresses, userId, id)
    requires AtMostOneDefault(addresses)
    ensures AtMostOneDefault(AfterPatch(addresses, userId, id, p))
    ensures p.isDefault == Some(true) ==> OnlyDefault(AfterPatch(addresses, userId, id, p), userId, id)
  {
    var cleared := if p.isDefault == Some(true) then ClearedDefaults(addresses, userId) else addresses;
    var q := Patched(cleared[id], p);
    if p.isDefault == Some(true) {
      DefaultAfterClear(addresses, userId, id, q);
    } else if q.isDefault {
      ReplaceDefaultKeepsAtMostOne(addresses, id, q);
    } else {
      NonDefaultKeepsAtMostOne(addresses, id, q);
    }
  }

  /** Builds the SET list entry by entry, in the handler's order, and the row it
      produces. */
  method SetList(a: Address, p: AddressPatch) returns (updates: seq<AddressUpdate>, q: Address)
    ensures |updates| == 0 <==> !Supplied(p)
    ensures q == Patched(a, p)
  {
    updates := [];
    q := a;
    updates, q := Push(updates, q, Entry(p, 0));
    StageStep(a, p, 0);
    updates, q := Push(updates, q, Entry(p, 1));
    StageStep(a, p, 1);
    updates, q := Push(updates, q, Entry(p, 2));
    StageStep(a, p, 2);
    updates, q := Push(updates, q, Entry(p, 3));
    StageStep(a, p, 3);
    updates, q := Push(updates, q, Entry(p, 4));
    StageStep(a, p, 4);
    updates, q := Push(updates, q, Entry(p, 5));
    StageStep(a, p, 5);
    StageFields(a, p, EntryCount);
    PushedIffSupplied(p);
  }

  /** One `if (...) { updates.push(...) }` of the handler: a present entry is pushed and
      applied to the row. */
  method Push(updates: seq<AddressUpdate>, q: Address, e: Option<AddressUpdate>)
    returns (updates': seq<AddressUpdate>, q': Address)
    ensures updates' == if e.Some? then updates + [e.value] else updates
    ensures |updates'| == |updates| + if e.Some? then 1 else 0
    ensures q' == if e.Some? then Apply(q, e.value) else q
  {
    updates', q' := updates, q;
    if e.Some? {
      updates' := updates + [e.value];
      q' := Apply(q, e.value);
    }
  }

  /** PUT /addresses/:address_id. Ownership is checked first (404); a truthy default flag
      then clears the customer's defaults; the SET list is built entry by entry and an empty
      list is refused (400), which cannot follow a clearing. */
  method UpdateAddress(db: Db, userId: int, id: int, p: AddressPatch) returns (r: Result<Address>)
    modifies db`addresses
    ensures r.Ok? <==> OwnsAddress(old(db.addresses), userId, id) && Supplied(p)
    ensures r.Err? ==> db.addresses == old(db.addresses)
    ensures r.Err? ==> r.error == if !OwnsAddress(old(db.addresses), userId, id) then NotFound else NoFieldsToUpdate
    ensures r.Ok? ==>
      && db.addresses == AfterPatch(old(db.addresses), userId, id, p)
      && r.value == db.addresses[id]
    ensures r.Ok? && old(AtMostOneDefault(db.addresses)) ==> AtMostOneDefault(db.addresses)
  {
    if id !in db.addresses || db.addresses[id].userId != userId {
      return Err(NotFound);
    }
    ghost var before := db.addresses;
    if p.isDefault == Some(true) {
      ClearDefaults(db, userId);
    }
    var a := db.addresses[id];
    var updates, q := SetList(a, p);
    if |updates| == 0 {
      return Err(NoFieldsToUpdate);
    }
    db.addresses := db.addresses[id := q];
    if AtMostOneDefault(before) {
      PatchKeepsAtMostOne(before, userId, id, p);
    }
    r := Ok(q);
  }

  // ---------------------------------------------------------------- deleting and listing

  /** DELETE /addresses/:address_id: only the customer's own address (404 otherwise). */
  method DeleteAddress(db: Db, userId: int, id: int) returns (r: Result<()>)
    modifies db`addresses
    ensures r.Ok? <==> OwnsAddress(old(db.addresses), userId, id)
    ensures r.Err? ==> r.error == NotFound && db.addresses == old(db.addresses)
    ensures r.Ok? ==> db.addresses == old(db.addresses) - {id}
    ensures old(AtMostOneDefault(db.addresses)) ==> AtMostOneDefault(db.addresses)
  {
    if id !in db.addresses || db.addresses[id].userId != userId {
      return Err(NotFound);
    }
    db.addresses := db.addresses - {id};
    r := Ok(());
  }

  /** ORDER BY is_default DESC, created_at DESC. */
  predicate DefaultThenNewest(a: (int, Address), b: (int, Address))
  {
    if a.1.isDefault != b.1.isDefault then a.1.isDefault else a.1.createdAt >= b.1.createdAt
  }

  lemma DefaultThenNewestOrders()
    ensures Listing.TotalPreorder(DefaultThenNewest)
  {
  }

  function OwnedBy(userId: int): ((int, Address)) -> bool
  {
    (e: (int, Address)) => e.1.userId == userId
  }

  /** GET /addresses. */
  function MyAddresses(addresses: map<int, Address>, userId: int): seq<(int, Address)>
  {
    DefaultThenNewestOrders();
    Listing.Sort(Listing.Filter(Listing.Entries(addresses), OwnedBy(userId)), DefaultThenNewest)
  }

  /** The list holds each of the customer's addresses once and nothing else, the default
      first and then newest first. */
  lemma MyAddressesExact(addresses: map<int, Address>, userId: int)
    ensures var r := MyAddresses(addresses, userId);
      && Listing.SortedBy(r, DefaultThenNewest)
      && (forall e :: e in r <==> e.0 in addresses && e.1 == addresses[e.0] && e.1.userId == userId)
      && (forall e :: multiset(r)[e] <= 1)
  {
    DefaultThenNewestOrders();
    var es := Listing.Entries(addresses);
    Listing.SortedFilter(es, OwnedBy(userId), DefaultThenNewest);
    forall e ensures e in es <==> e.0 in addresses && e.1 == addresses[e.0] {
      Listing.InEntries(addresses, e);
    }
    forall e ensures multiset(MyAddresses(addresses, userId))[e] <= 1 {
      Listing.EntriesOnce(addresses, e);
    }
  }

  /** A customer with a default address sees it at the head of the list. */
  lemma DefaultListedFirst(addresses: map<int, Address>, userId: int, id: int)
    requires id in addresses && addresses[id].userId == userId && addresses[id].isDefault
    ensures |MyAddresses(addresses, userId)| > 0 && MyAddresses(addresses, userId)[0].1.isDefault
  {
    MyAddressesExact(addresses, userId);
    var r := MyAddresses(addresses, userId);
    var e := (id, addresses[id]);
    assert e in r;
    var i :| 0 <= i < |r| && r[i] == e;
    if i > 0 {
      assert DefaultThenNewest(r[0], r[i]);
    }
  }
}
