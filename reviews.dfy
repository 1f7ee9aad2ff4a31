/** The review handlers of backend/controllers/reviewController.js: submitting a review of a
    delivered order, asking whether an order can be reviewed, editing and deleting a review,
    and the rating aggregates of the restaurant and the delivery partner that each of them
    rewrites. */
module Reviews {
  import opened Common
  import opened Tables
  import opened Ratings

  /** The body of POST /reviews; an absent or null field is `None`. */
  datatype ReviewRequest = ReviewRequest(
    orderId: int,
    restaurantRating: Option<int>,
    restaurantReview: Option<string>,
    deliveryRating: Option<int>,
    deliveryReview: Option<string>)

  /** A present, non-zero number: JavaScript truthiness of a rating or an id. */
  predicate Truthy(x: Option<int>)
  {
    x.Some? && x.value != 0
  }

  /** `x || null` on a rating. */
  function RatingOrNull(x: Option<int>): (r: Option<int>)
    ensures r.Some? <==> Truthy(x)
    ensures r.Some? ==> r == x
  {
    if Truthy(x) then x else None
  }

  /** `x || null` on a text. */
  function TextOrNull(x: Option<string>): (r: Option<string>)
    ensures r.Some? <==> x.Some? && x.value != ""
    ensures r.Some? ==> r == x
  {
    if x.Some? && x.value != "" then x else None
  }

  predicate HasReview(reviews: map<int, Review>, orderId: int)
  {
    exists k :: k in reviews && reviews[k].orderId == orderId
  }

  /** Each order has at most one review. */
  predicate OneReviewPerOrder(reviews: map<int, Review>)
  {
    forall k1, k2 :: k1 in reviews && k2 in reviews && reviews[k1].orderId == reviews[k2].orderId ==> k1 == k2
  }

  /** Inserting a review of an order that has none keeps one review per order. */
  lemma InsertKeepsOneReviewPerOrder(reviews: map<int, Review>, id: int, rv: Review)
    requires OneReviewPerOrder(reviews) && id !in reviews && !HasReview(reviews, rv.orderId)
    ensures OneReviewPerOrder(reviews[id := rv])
    ensures HasReview(reviews[id := rv], rv.orderId)
  {
    assert reviews[id := rv][id].orderId == rv.orderId;
  }

  /** The order belongs to the customer. */
  predicate Owns(orders: map<int, Order>, customerId: int, orderId: int)
  {
    orderId in orders && orders[orderId].customerId == customerId
  }

  /** The guards of review submission, all passing. */
  predicate Reviewable(orders: map<int, Order>, reviews: map<int, Review>, customerId: int, orderId: int)
  {
    Owns(orders, customerId, orderId) && orders[orderId].status == Delivered && !HasReview(reviews, orderId)
  }

  /** The row POST /reviews inserts for an order. */
  function NewReview(customerId: int, o: Order, req: ReviewRequest): (rv: Review)
    ensures rv.orderId == req.orderId && rv.userId == customerId
    ensures rv.restaurantId == o.restaurantId && rv.deliveryPartnerId == o.deliveryPartnerId
    ensures rv.restaurantRating == req.restaurantRating
    ensures rv.deliveryRating.Some? <==> Truthy(req.deliveryRating)
  {
    Review(req.orderId, customerId, o.restaurantId, o.deliveryPartnerId,
      req.restaurantRating, TextOrNull(req.restaurantReview),
      RatingOrNull(req.deliveryRating), TextOrNull(req.deliveryReview))
  }

  /** The restaurants after a new review: with a truthy restaurant rating, one more rating
      and the mean over all reviews including the new one. */
  function SubmittedRestaurants(restaurants: map<int, Restaurant>, reviews: map<int, Review>, rv: Review): map<int, Restaurant>
  {
    if Truthy(rv.restaurantRating) then RestaurantRerated(restaurants, reviews, rv.restaurantId, 1) else restaurants
  }

  /** The partners after a new review: only with a delivery rating and a (truthy) delivery
      partner on the order. */
  function SubmittedPartners(partners: map<int, Partner>, reviews: map<int, Review>, rv: Review): map<int, Partner>
  {
    if Truthy(rv.deliveryRating) && Truthy(rv.deliveryPartnerId)
    then PartnerRerated(partners, reviews, rv.deliveryPartnerId.value, 1)
    else partners
  }

  /** A new review keeps every restaurant's stored aggregate in agreement with the reviews,
      provided its restaurant rating is not 0 (the review rules demand 1 to 5). */
  lemma SubmitKeepsRestaurants(restaurants: map<int, Restaurant>, reviews: map<int, Review>, id: int, rv: Review)
    requires id !in reviews && RestaurantsAgree(restaurants, reviews)
    requires rv.restaurantRating != Some(0)
    ensures RestaurantsAgree(SubmittedRestaurants(restaurants, reviews[id := rv], rv), reviews[id := rv])
  {
    var after := reviews[id := rv];
    var rs := SubmittedRestaurants(restaurants, after, rv);
    forall k | k in rs ensures Agrees(rs[k].rating, rs[k].totalRatings, after, OfRestaurant(k)) {
      TallyInsert(reviews, OfRestaurant(k), id, rv);
    }
  }

  /** A new review keeps every partner's stored aggregate in agreement with the reviews. */
  lemma SubmitKeepsPartners(partners: map<int, Partner>, reviews: map<int, Review>, id: int, rv: Review)
    requires id !in reviews && PartnersAgree(partners, reviews) && 0 !in partners
    requires rv.deliveryRating != Some(0)
    ensures PartnersAgree(SubmittedPartners(partners, reviews[id := rv], rv), reviews[id := rv])
  {
    var after := reviews[id := rv];
    var ps := SubmittedPartners(partners, after, rv);
    forall k | k in ps ensures Agrees(ps[k].rating, ps[k].totalRatings, after, OfPartner(k)) {
      TallyInsert(reviews, OfPartner(k), id, rv);
    }
  }

  /** POST /reviews. The guards run in order: the caller's own order (404), delivered, not
      yet reviewed; a failed guard rolls back. */
  method SubmitReview(db: Db, customerId: int, req: ReviewRequest) returns (r: Result<int>)
    requires db.Valid()
    modifies db`reviews, db`restaurants, db`partners, db`nextId
    ensures db.Valid()
    ensures r.Ok? <==> Reviewable(old(db.orders), old(db.reviews), customerId, req.orderId)
    ensures !Owns(old(db.orders), customerId, req.orderId) ==> r == Err(NotFound)
    ensures (Owns(old(db.orders), customerId, req.orderId) && old(db.orders)[req.orderId].status != Delivered) ==>
      r == Err(NotDelivered)
    ensures (Owns(old(db.orders), customerId, req.orderId) && old(db.orders)[req.orderId].status == Delivered &&
             HasReview(old(db.reviews), req.orderId)) ==> r == Err(AlreadyReviewed)
    ensures r.Err? ==> unchanged(db`reviews, db`restaurants, db`partners, db`nextId)
    ensures r.Ok? ==>
      var rv := NewReview(customerId, old(db.orders)[req.orderId], req);
      && r.value == old(db.nextId) && r.value !in old(db.reviews)
      && db.reviews == old(db.reviews)[r.value := rv]
      && db.restaurants == SubmittedRestaurants(old(db.restaurants), db.reviews, rv)
      && db.partners == SubmittedPartners(old(db.partners), db.reviews, rv)
    ensures r.Ok? && old(OneReviewPerOrder(db.reviews)) ==> OneReviewPerOrder(db.reviews)
    ensures r.Ok? && old(RestaurantsAgree(db.restaurants, db.reviews)) && req.restaurantRating != Some(0) ==>
      RestaurantsAgree(db.restaurants, db.reviews)
    ensures r.Ok? && old(PartnersAgree(db.partners, db.reviews)) ==> PartnersAgree(db.partners, db.reviews)
  {
    if req.orderId !in db.orders || db.orders[req.orderId].customerId != customerId {
      return Err(NotFound);
    }
    var o := db.orders[req.orderId];
    if o.status != Delivered {
      return Err(NotDelivered);
    }
    if HasReview(db.reviews, req.orderId) {
      return Err(AlreadyReviewed);
    }
    var rv := NewReview(customerId, o, req);
    assert rv.deliveryRating != Some(0);
    var id := InsertReview(db, rv);
    r := Ok(id);
  }

  /** The transaction of a submission: the review row under a fresh id, then the
      restaurant's and the delivery partner's aggregates recomputed from the reviews. */
  method InsertReview(db: Db, rv: Review) returns (id: int)
    requires db.Valid()
    modifies db`reviews, db`restaurants, db`partners, db`nextId
    ensures db.Valid()
    ensures id == old(db.nextId) && id !in old(db.reviews)
    ensures db.reviews == old(db.reviews)[id := rv]
    ensures db.restaurants == SubmittedRestaurants(old(db.restaurants), db.reviews, rv)
    ensures db.partners == SubmittedPartners(old(db.partners), db.reviews, rv)
    ensures old(OneReviewPerOrder(db.reviews)) && !HasReview(old(db.reviews), rv.orderId) ==>
      OneReviewPerOrder(db.reviews)
    ensures old(RestaurantsAgree(db.restaurants, db.reviews)) && rv.restaurantRating != Some(0) ==>
      RestaurantsAgree(db.restaurants, db.reviews)
    ensures old(PartnersAgree(db.partners, db.reviews)) && rv.deliveryRating != Some(0) ==>
      PartnersAgree(db.partners, db.reviews)
  {
    ghost var before := db.reviews;
    ghost var restaurantsBefore := db.restaurants;
    ghost var partnersBefore := db.partners;
    id := db.FreshId();
    db.reviews := db.reviews[id := rv];
    db.restaurants := SubmittedRestaurants(db.restaurants, db.reviews, rv);
    db.partners := SubmittedPartners(db.partners, db.reviews, rv);
    assert db.restaurants.Keys == restaurantsBefore.Keys && db.partners.Keys == partnersBefore.Keys;
    if OneReviewPerOrder(before) && !HasReview(before, rv.orderId) {
      InsertKeepsOneReviewPerOrder(before, id, rv);
    }
    if RestaurantsAgree(restaurantsBefore, before) && rv.restaurantRating != Some(0) {
      SubmitKeepsRestaurants(restaurantsBefore, before, id, rv);
    }
    if PartnersAgree(partnersBefore, before) && rv.deliveryRating != Some(0) {
      SubmitKeepsPartners(partnersBefore, before, id, rv);
    }
  }

  /** What GET /reviews/can-review/:order_id answers for the caller's own order. */
  datatype Eligibility = Eligible | NotYetDelivered | ReviewedAlready

  /** GET /reviews/can-review/:order_id. It reports `Eligible` exactly when submission would
      pass all its guards, and fails exactly when submission would fail as not found. */
  function CanReviewOrder(orders: map<int, Order>, reviews: map<int, Review>, customerId: int, orderId: int)
    : (r: Result<Eligibility>)
    ensures r == Ok(Eligible) <==> Reviewable(orders, reviews, customerId, orderId)
    ensures r.Err? <==> !Owns(orders, customerId, orderId)
    ensures r.Err? ==> r.error == NotFound
    ensures r == Ok(NotYetDelivered) <==> Owns(orders, customerId, orderId) && orders[orderId].status != Delivered
  {
    if orderId !in orders || orders[orderId].customerId != customerId then Err(NotFound)
    else if orders[orderId].status != Delivered then Ok(NotYetDelivered)
    else if HasReview(reviews, orderId) then Ok(ReviewedAlready)
    else Ok(Eligible)
  }

  // ---------------------------------------------------------------- editing

  /** The body of PUT /reviews/:id; null or absent is `None`. */
  datatype ReviewPatch = ReviewPatch(
    restaurantRating: Option<int>,
    restaurantReview: Option<string>,
    deliveryRating: Option<int>,
    deliveryReview: Option<string>)

  /** COALESCE(new, old). */
  function Coalesce<T>(x: Option<T>, prev: Option<T>): (r: Option<T>)
    ensures x.Some? ==> r == x
    ensures x.None? ==> r == prev
  {
    if x.Some? then x else prev
  }

  /** The review after an edit: supplied fields replace, absent fields keep their value;
      the order, author, restaurant and partner never change. */
  function Patched(rv: Review, p: ReviewPatch): (q: Review)
    ensures q.orderId == rv.orderId && q.userId == rv.userId
    ensures q.restaurantId == rv.restaurantId && q.deliveryPartnerId == rv.deliveryPartnerId
    ensures q.restaurantRating == Coalesce(p.restaurantRating, rv.restaurantRating)
    ensures q.deliveryRating == Coalesce(p.deliveryRating, rv.deliveryRating)
    ensures q.restaurantReview == Coalesce(p.restaurantReview, rv.restaurantReview)
    ensures q.deliveryReview == Coalesce(p.deliveryReview, rv.deliveryReview)
  {
    rv.(restaurantRating := Coalesce(p.restaurantRating, rv.restaurantRating),
        restaurantReview := Coalesce(p.restaurantReview, rv.restaurantReview),
        deliveryRating := Coalesce(p.deliveryRating, rv.deliveryRating),
        deliveryReview := Coalesce(p.deliveryReview, rv.deliveryReview))
  }

  /** The restaurants after an edit: the mean is recomputed when a truthy rating different
      from the old one is supplied; the total never changes. */
  function EditedRestaurants(restaurants: map<int, Restaurant>, reviews: map<int, Review>, rv: Review, p: ReviewPatch)
    : map<int, Restaurant>
  {
    if Truthy(p.restaurantRating) && p.restaurantRating != rv.restaurantRating
    then RestaurantRerated(restaurants, reviews, rv.restaurantId, 0)
    else restaurants
  }

  /** The partners after an edit, as the handler has it: the partner's mean is recomputed
      when a truthy delivery rating different from the old one is supplied; the total never
      changes, even when the review had no delivery rating before. */
  function EditedPartners(partners: map<int, Partner>, reviews: map<int, Review>, rv: Review, p: ReviewPatch)
    : map<int, Partner>
  {
    if Truthy(p.deliveryRating) && p.deliveryRating != rv.deliveryRating && rv.deliveryPartnerId.Some?
    then PartnerRerated(partners, reviews, rv.deliveryPartnerId.value, 0)
    else partners
  }

  /** An edit keeps the restaurants' aggregates in agreement when the review already had a
      restaurant rating (submission always stores one), unless the new rating is 0. PUT runs
      no validator, so a 0 is stored by COALESCE; being falsy it triggers no recompute: the
      rows stay as they were while the edited restaurant's ratings trade the old value for 0. */
  lemma EditKeepsRestaurants(restaurants: map<int, Restaurant>, reviews: map<int, Review>, id: int, p: ReviewPatch)
    requires id in reviews && RestaurantsAgree(restaurants, reviews)
    requires reviews[id].restaurantRating.Some? || p.restaurantRating.None?
    ensures var after := reviews[id := Patched(reviews[id], p)];
      p.restaurantRating != Some(0) ==>
        RestaurantsAgree(EditedRestaurants(restaurants, after, reviews[id], p), after)
    ensures var after := reviews[id := Patched(reviews[id], p)];
      var t := OfRestaurant(reviews[id].restaurantId);
      p.restaurantRating == Some(0) ==>
        && EditedRestaurants(restaurants, after, reviews[id], p) == restaurants
        && TallyOf(after, t) == Tally(TallyOf(reviews, t).sum - reviews[id].restaurantRating.value, TallyOf(reviews, t).count)
  {
    var rv := reviews[id];
    var q := Patched(rv, p);
    var after := reviews[id := q];
    if p.restaurantRating != Some(0) {
      var rs := EditedRestaurants(restaurants, after, rv, p);
      forall k | k in rs ensures Agrees(rs[k].rating, rs[k].totalRatings, after, OfRestaurant(k)) {
        TallyReplace(reviews, OfRestaurant(k), id, q);
      }
    } else {
      ZeroedTally(reviews, OfRestaurant(rv.restaurantId), id, q);
    }
  }

  /** Replacing a review's rating for `t` by 0 takes the old value off the sum and keeps the
      count. */
  lemma ZeroedTally(reviews: map<int, Review>, t: Target, id: int, r: Review)
    requires id in reviews && RatingFor(t, reviews[id]).Some? && RatingFor(t, r) == Some(0)
    ensures TallyOf(reviews[id := r], t)
      == Tally(TallyOf(reviews, t).sum - RatingFor(t, reviews[id]).value, TallyOf(reviews, t).count)
  {
    TallyReplace(reviews, t, id, r);
    AddZero(TallyOf(reviews - {id}, t), RatingFor(t, reviews[id]).value);
  }

  lemma AddZero(rest: Tally, v: int)
    ensures Add(rest, Some(0)) == Tally(Add(rest, Some(v)).sum - v, Add(rest, Some(v)).count)
  {
  }

  /** As written, editing a restaurant rating to 0 leaves a stale mean: one review rating
      restaurant 1 with 4 (stored 4.0 from one rating) is edited to 0; the reviews now give a
      mean of 0.0, the stored rating stays 4.0. */
  lemma EditZeroLeavesMeanStale()
    ensures var restaurants := map[1 := Restaurant("Udupi", "", "", "", "", "", "", None, 40, 1, true, 0)];
      var reviews := map[10 := Review(5, 2, 1, None, Some(4), None, None, None)];
      var p := ReviewPatch(Some(0), None, None, None);
      var after := reviews[10 := Patched(reviews[10], p)];
      && RestaurantsAgree(restaurants, reviews)
      && !RestaurantsAgree(EditedRestaurants(restaurants, after, reviews[10], p), after)
  {
    var restaurants := map[1 := Restaurant("Udupi", "", "", "", "", "", "", None, 40, 1, true, 0)];
    var rv := Review(5, 2, 1, None, Some(4), None, None, None);
    var reviews := map[10 := rv];
    var p := ReviewPatch(Some(0), None, None, None);
    var after := reviews[10 := Patched(rv, p)];
    assert TallyOf(reviews, OfRestaurant(1)) == Tally(4, 1) by {
      SingleReviewTally(reviews, 10, OfRestaurant(1));
    }
    assert TallyOf(after, OfRestaurant(1)) == Tally(0, 1) by {
      assert after.Keys == {10};
      SingleReviewTally(after, 10, OfRestaurant(1));
    }
    assert Round1(4, 1) == 40;
    assert EditedRestaurants(restaurants, after, rv, p) == restaurants;
    assert !Agrees(40, 1, after, OfRestaurant(1));
  }

  /** The tally of a table holding one review is that review's rating. */
  lemma SingleReviewTally(reviews: map<int, Review>, id: int, t: Target)
    requires reviews.Keys == {id}
    ensures TallyOf(reviews, t) == Add(Tally(0, 0), RatingFor(t, reviews[id]))
  {
    assert Listing.IsLeast(reviews.Keys, id);
    TallyLeast(reviews, t, id);
    assert (reviews - {id}).Keys == {};
  }

  /** The restaurants after an edit as evidently intended: any supplied rating that differs
      from the stored one, 0 included, recomputes the mean, and a first rating counts one
      more. */
  function EditedRestaurantsFixed(restaurants: map<int, Restaurant>, reviews: map<int, Review>, rv: Review, p: ReviewPatch)
    : map<int, Restaurant>
  {
    if p.restaurantRating.Some? && p.restaurantRating != rv.restaurantRating
    then RestaurantRerated(restaurants, reviews, rv.restaurantId, if rv.restaurantRating.None? then 1 else 0)
    else restaurants
  }

  /** With the fix every edit keeps the restaurants' aggregates in agreement. */
  lemma EditFixedKeepsRestaurants(restaurants: map<int, Restaurant>, reviews: map<int, Review>, id: int, p: ReviewPatch)
    requires id in reviews && RestaurantsAgree(restaurants, reviews)
    ensures var after := reviews[id := Patched(reviews[id], p)];
      RestaurantsAgree(EditedRestaurantsFixed(restaurants, after, reviews[id], p), after)
  {
    var rv := reviews[id];
    var q := Patched(rv, p);
    var after := reviews[id := q];
    var rs := EditedRestaurantsFixed(restaurants, after, rv, p);
    forall k | k in rs ensures Agrees(rs[k].rating, rs[k].totalRatings, after, OfRestaurant(k)) {
      TallyReplace(reviews, OfRestaurant(k), id, q);
    }
  }

  /** An edit keeps the partners' aggregates in agreement when the review already had a
      delivery rating or gets none (see `EditMiscountsFirstDeliveryRating` for the other
      case), unless the new delivery rating is 0: that is stored without a recompute, so the
      rows stay while the partner's ratings trade the old value for 0. */
  lemma EditKeepsPartners(partners: map<int, Partner>, reviews: map<int, Review>, id: int, p: ReviewPatch)
    requires id in reviews && PartnersAgree(partners, reviews)
    requires reviews[id].deliveryRating.Some? || p.deliveryRating.None?
    ensures var after := reviews[id := Patched(reviews[id], p)];
      p.deliveryRating != Some(0) ==>
        PartnersAgree(EditedPartners(partners, after, reviews[id], p), after)
    ensures var after := reviews[id := Patched(reviews[id], p)];
      p.deliveryRating == Some(0) && reviews[id].deliveryPartnerId.Some? ==>
        var t := OfPartner(reviews[id].deliveryPartnerId.value);
        && EditedPartners(partners, after, reviews[id], p) == partners
        && TallyOf(after, t) == Tally(TallyOf(reviews, t).sum - reviews[id].deliveryRating.value, TallyOf(reviews, t).count)
  {
    var rv := reviews[id];
    var q := Patched(rv, p);
    var after := reviews[id := q];
    if p.deliveryRating != Some(0) {
      var ps := EditedPartners(partners, after, rv, p);
      forall k | k in ps ensures Agrees(ps[k].rating, ps[k].totalRatings, after, OfPartner(k)) {
        TallyReplace(reviews, OfPartner(k), id, q);
      }
    } else if rv.deliveryPartnerId.Some? {
      ZeroedTally(reviews, OfPartner(rv.deliveryPartnerId.value), id, q);
    }
  }

  /** As written, the first delivery rating added by an edit is counted in the partner's
      mean but not in its total_ratings: the stored total falls one short of the ratings. */
  lemma EditMiscountsFirstDeliveryRating(partners: map<int, Partner>, reviews: map<int, Review>, id: int, p: ReviewPatch)
    requires id in reviews && PartnersAgree(partners, reviews)
    requires reviews[id].deliveryRating.None? && Truthy(p.deliveryRating)
    requires reviews[id].deliveryPartnerId.Some? && reviews[id].deliveryPartnerId.value in partners
    ensures var after := reviews[id := Patched(reviews[id], p)];
      var pid := reviews[id].deliveryPartnerId.value;
      EditedPartners(partners, after, reviews[id], p)[pid].totalRatings + 1 == TallyOf(after, OfPartner(pid)).count
  {
    var pid := reviews[id].deliveryPartnerId.value;
    TallyReplace(reviews, OfPartner(pid), id, Patched(reviews[id], p));
  }

  /** The partners after an edit as evidently intended: any supplied delivery rating that
      differs from the stored one, 0 included, recomputes the mean, and a first delivery
      rating also counts one more rating. */
  function EditedPartnersFixed(partners: map<int, Partner>, reviews: map<int, Review>, rv: Review, p: ReviewPatch)
    : map<int, Partner>
  {
    if p.deliveryRating.Some? && p.deliveryRating != rv.deliveryRating && rv.deliveryPartnerId.Some?
    then PartnerRerated(partners, reviews, rv.deliveryPartnerId.value, if rv.deliveryRating.None? then 1 else 0)
    else partners
  }

  /** With the fix every edit keeps the partners' aggregates in agreement. */
  lemma EditFixedKeepsPartners(partners: map<int, Partner>, reviews: map<int, Review>, id: int, p: ReviewPatch)
    requires id in reviews && PartnersAgree(partners, reviews)
    ensures var after := reviews[id := Patched(reviews[id], p)];
      PartnersAgree(EditedPartnersFixed(partners, after, reviews[id], p), after)
  {
    var rv := reviews[id];
    var q := Patched(rv, p);
    var after := reviews[id := q];
    var ps := EditedPartnersFixed(partners, after, rv, p);
    forall k | k in ps ensures Agrees(ps[k].rating, ps[k].totalRatings, after, OfPartner(k)) {
      TallyReplace(reviews, OfPartner(k), id, q);
    }
  }

  /** PUT /reviews/:id. Only the author may edit (404 otherwise, nothing changes). */
  method UpdateReview(db: Db, customerId: int, reviewId: int, p: ReviewPatch) returns (r: Result<Review>)
    modifies db`reviews, db`restaurants, db`partners
    ensures r.Ok? <==> reviewId in old(db.reviews) && old(db.reviews)[reviewId].userId == customerId
    ensures r.Err? ==> r.error == NotFound && unchanged(db`reviews, db`restaurants, db`partners)
    ensures r.Ok? ==>
      var rv := old(db.reviews)[reviewId];
      && r.value == Patched(rv, p)
      && db.reviews == old(db.reviews)[reviewId := r.value]
      && db.restaurants == EditedRestaurants(old(db.restaurants), db.reviews, rv, p)
      && db.partners == EditedPartners(old(db.partners), db.reviews, rv, p)
    ensures r.Ok? ==> forall k :: k in db.restaurants ==>
      k in old(db.restaurants) && db.restaurants[k].totalRatings == old(db.restaurants)[k].totalRatings
    ensures r.Ok? ==> forall k :: k in db.partners ==>
      k in old(db.partners) && db.partners[k].totalRatings == old(db.partners)[k].totalRatings
  {
    if reviewId !in db.reviews || db.reviews[reviewId].userId != customerId {
      return Err(NotFound);
    }
    var rv := db.reviews[reviewId];
    var q := Patched(rv, p);
    db.reviews := db.reviews[reviewId := q];
    if Truthy(p.restaurantRating) && p.restaurantRating != rv.restaurantRating {
      db.restaurants := RestaurantRerated(db.restaurants, db.reviews, rv.restaurantId, 0);
    }
    if Truthy(p.deliveryRating) && p.deliveryRating != rv.deliveryRating && rv.deliveryPartnerId.Some? {
      db.partners := PartnerRerated(db.partners, db.reviews, rv.deliveryPartnerId.value, 0);
    }
    r := Ok(q);
  }

  // ---------------------------------------------------------------- deleting

  /** The partners after a review is deleted, as the handler has it: whenever the review
      names a (truthy) partner, one rating less and the mean of the rest, whether or not the
      review carried a delivery rating. */
  function DeletedPartners(partners: map<int, Partner>, rest: map<int, Review>, rv: Review): map<int, Partner>
  {
    if Truthy(rv.deliveryPartnerId) then PartnerRerated(partners, rest, rv.deliveryPartnerId.value, -1) else partners
  }

  /** Deleting a review with a restaurant rating keeps the restaurants' aggregates in
      agreement (submission always stores a restaurant rating). */
  lemma DeleteKeepsRestaurants(restaurants: map<int, Restaurant>, reviews: map<int, Review>, id: int)
    requires id in reviews && RestaurantsAgree(restaurants, reviews)
    requires reviews[id].restaurantRating.Some?
    ensures RestaurantsAgree(RestaurantRerated(restaurants, reviews - {id}, reviews[id].restaurantId, -1), reviews - {id})
  {
    var rest := reviews - {id};
    var rs := RestaurantRerated(restaurants, rest, reviews[id].restaurantId, -1);
    forall k | k in rs ensures Agrees(rs[k].rating, rs[k].totalRatings, rest, OfRestaurant(k)) {
      TallyRemove(reviews, OfRestaurant(k), id);
    }
  }

  /** Deleting a review with a delivery rating keeps the partners' aggregates in agreement. */
  lemma DeleteKeepsPartners(partners: map<int, Partner>, reviews: map<int, Review>, id: int)
    requires id in reviews && PartnersAgree(partners, reviews) && 0 !in partners
    requires reviews[id].deliveryRating.Some?
    ensures PartnersAgree(DeletedPartners(partners, reviews - {id}, reviews[id]), reviews - {id})
  {
    var rest := reviews - {id};
    var ps := DeletedPartners(partners, rest, reviews[id]);
    forall k | k in ps ensures Agrees(ps[k].rating, ps[k].totalRatings, rest, OfPartner(k)) {
      TallyRemove(reviews, OfPartner(k), id);
    }
  }

  /** As written, deleting a review that names a partner but gave no delivery rating takes
      one rating off the partner although none of its ratings went away. */
  lemma DeleteMiscountsUnratedReview(partners: map<int, Partner>, reviews: map<int, Review>, id: int)
    requires id in reviews && PartnersAgree(partners, reviews)
    requires reviews[id].deliveryRating.None? && Truthy(reviews[id].deliveryPartnerId)
    requires reviews[id].deliveryPartnerId.value in partners
    ensures var pid := reviews[id].deliveryPartnerId.value;
      DeletedPartners(partners, reviews - {id}, reviews[id])[pid].totalRatings + 1 == TallyOf(reviews - {id}, OfPartner(pid)).count
  {
    var pid := reviews[id].deliveryPartnerId.value;
    TallyRemove(reviews, OfPartner(pid), id);
  }

  /** The partners after a deletion as evidently intended: only a review with a delivery
      rating takes a rating off its partner. */
  function DeletedPartnersFixed(partners: map<int, Partner>, rest: map<int, Review>, rv: Review): map<int, Partner>
  {
    if Truthy(rv.deliveryPartnerId) && rv.deliveryRating.Some?
    then PartnerRerated(partners, rest, rv.deliveryPartnerId.value, -1)
    else partners
  }

  /** With the fix every deletion keeps the partners' aggregates in agreement. */
  lemma DeleteFixedKeepsPartners(partners: map<int, Partner>, reviews: map<int, Review>, id: int)
    requires id in reviews && PartnersAgree(partners, reviews) && 0 !in partners
    ensures PartnersAgree(DeletedPartnersFixed(partners, reviews - {id}, reviews[id]), reviews - {id})
  {
    var rest := reviews - {id};
    var ps := DeletedPartnersFixed(partners, rest, reviews[id]);
    forall k | k in ps ensures Agrees(ps[k].rating, ps[k].totalRatings, rest, OfPartner(k)) {
      TallyRemove(reviews, OfPartner(k), id);
    }
  }

  /** DELETE /reviews/:id. Only the author may delete (404 otherwise, nothing changes). The
      restaurant always loses one rating and gets the mean of the rest, or 0 when none is
      left. */
  method DeleteReview(db: Db, customerId: int, reviewId: int) returns (r: Result<()>)
    requires db.Valid()
    modifies db`reviews, db`restaurants, db`partners
    ensures db.Valid()
    ensures r.Ok? <==> reviewId in old(db.reviews) && old(db.reviews)[reviewId].userId == customerId
    ensures r.Err? ==> r.error == NotFound && unchanged(db`reviews, db`restaurants, db`partners)
    ensures r.Ok? ==>
      var rv := old(db.reviews)[reviewId];
      && db.reviews == old(db.reviews) - {reviewId}
      && db.restaurants == RestaurantRerated(old(db.restaurants), db.reviews, rv.restaurantId, -1)
      && db.partners == DeletedPartners(old(db.partners), db.reviews, rv)
    ensures r.Ok? && old(RestaurantsAgree(db.restaurants, db.reviews)) && old(db.reviews)[reviewId].restaurantRating.Some? ==>
      RestaurantsAgree(db.restaurants, db.reviews)
    ensures r.Ok? && old(PartnersAgree(db.partners, db.reviews)) && old(db.reviews)[reviewId].deliveryRating.Some? ==>
      PartnersAgree(db.partners, db.reviews)
  {
    if reviewId !in db.reviews || db.reviews[reviewId].userId != customerId {
      return Err(NotFound);
    }
    var rv := db.reviews[reviewId];
    ghost var before := db.reviews;
    ghost var restaurantsBefore := db.restaurants;
    ghost var partnersBefore := db.partners;
    db.reviews := db.reviews - {reviewId};
    db.restaurants := RestaurantRerated(db.restaurants, db.reviews, rv.restaurantId, -1);
    if Truthy(rv.deliveryPartnerId) {
      db.partners := PartnerRerated(db.partners, db.reviews, rv.deliveryPartnerId.value, -1);
    }
    if RestaurantsAgree(restaurantsBefore, before) && rv.restaurantRating.Some? {
      DeleteKeepsRestaurants(restaurantsBefore, before, reviewId);
    }
    if PartnersAgree(partnersBefore, before) && rv.deliveryRating.Some? {
      DeleteKeepsPartners(partnersBefore, before, reviewId);
    }
    r := Ok(());
  }
}
