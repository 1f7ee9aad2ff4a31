/** The rating aggregates of backend/controllers/reviewController.js. A restaurant's and a
    delivery partner's `rating` is ROUND(AVG(...), 1) over the non-null ratings the reviews
    give it, and `total_ratings` is meant to count those ratings. Here the aggregate is a
    SUM/COUNT tally over the reviews table, and ROUND(..., 1) is computed exactly in tenths. */
module Ratings {
  import opened Common
  import opened Tables
  import Listing

  /** Whose ratings an aggregate collects. */
  datatype Target = OfRestaurant(id: int) | OfPartner(id: int)

  /** The rating a review gives to `t`: its restaurant_rating when `t` is its restaurant,
      its delivery_rating when `t` is its delivery partner, and nothing otherwise or when
      the column is NULL. */
  function RatingFor(t: Target, r: Review): Option<int>
  {
    match t
    case OfRestaurant(id) => if r.restaurantId == id then r.restaurantRating else None
    case OfPartner(id) => if r.deliveryPartnerId == Some(id) then r.deliveryRating else None
  }

  /** SUM and COUNT of a set of non-null ratings. */
  datatype Tally = Tally(sum: int, count: nat)

  function Add(a: Tally, v: Option<int>): Tally
  {
    if v.Some? then Tally(a.sum + v.value, a.count + 1) else a
  }

  /** The tally of the ratings the reviews give to `t`, taking the reviews by increasing id. */
  function TallyOf(reviews: map<int, Review>, t: Target): Tally
    decreases |reviews|
  {
    if reviews.Keys == {} then Tally(0, 0)
    else
      Listing.LeastExists(reviews.Keys);
      var k :| Listing.IsLeast(reviews.Keys, k);
      var rest := reviews - {k};
      assert rest.Keys == reviews.Keys - {k};
      Add(TallyOf(rest, t), RatingFor(t, reviews[k]))
  }

  /** The tally does not depend on the order the reviews are taken in: any one review can be
      taken last. */
  lemma {:induction false} TallyRemove(reviews: map<int, Review>, t: Target, x: int)
    requires x in reviews
    ensures TallyOf(reviews, t) == Add(TallyOf(reviews - {x}, t), RatingFor(t, reviews[x]))
    decreases |reviews|
  {
    Listing.LeastExists(reviews.Keys);
    var k :| Listing.IsLeast(reviews.Keys, k);
    TallyLeast(reviews, t, k);
    if k != x {
      var rest := reviews - {k};
      assert rest.Keys == reviews.Keys - {k};
      TallyRemove(rest, t, x);
      var without := reviews - {x};
      assert without.Keys == reviews.Keys - {x};
      assert Listing.IsLeast(without.Keys, k);
      TallyLeast(without, t, k);
      assert without - {k} == rest - {x};
      assert without[k] == reviews[k] && rest[x] == reviews[x];
    }
  }

  /** The tally takes the least id last. */
  lemma TallyLeast(reviews: map<int, Review>, t: Target, k: int)
    requires Listing.IsLeast(reviews.Keys, k)
    ensures TallyOf(reviews, t) == Add(TallyOf(reviews - {k}, t), RatingFor(t, reviews[k]))
  {
    Listing.LeastExists(reviews.Keys);
  }

  /** A review inserted under a new id adds its rating to the tally. */
  lemma TallyInsert(reviews: map<int, Review>, t: Target, id: int, r: Review)
    requires id !in reviews
    ensures TallyOf(reviews[id := r], t) == Add(TallyOf(reviews, t), RatingFor(t, r))
  {
    TallyRemove(reviews[id := r], t, id);
    assert reviews[id := r] - {id} == reviews;
  }

  /** A review replaced under its id swaps its old rating for its new one. */
  lemma TallyReplace(reviews: map<int, Review>, t: Target, id: int, r: Review)
    requires id in reviews
    ensures TallyOf(reviews, t) == Add(TallyOf(reviews - {id}, t), RatingFor(t, reviews[id]))
    ensures TallyOf(reviews[id := r], t) == Add(TallyOf(reviews - {id}, t), RatingFor(t, r))
  {
    TallyRemove(reviews, t, id);
    TallyRemove(reviews[id := r], t, id);
    assert reviews[id := r] - {id} == reviews - {id};
  }

  /** Every rating the reviews give to `t` is between 1 and 5, as the review rules demand. */
  predicate RatingsInRange(reviews: map<int, Review>, t: Target)
  {
    forall k :: k in reviews && RatingFor(t, reviews[k]).Some? ==> 1 <= RatingFor(t, reviews[k]).value <= 5
  }

  /** With ratings in 1..5 the sum lies between the count and five times the count. */
  lemma {:induction false} TallyInRange(reviews: map<int, Review>, t: Target)
    requires RatingsInRange(reviews, t)
    ensures TallyOf(reviews, t).count <= TallyOf(reviews, t).sum <= 5 * TallyOf(reviews, t).count
    decreases |reviews|
  {
    if reviews.Keys != {} {
      Listing.LeastExists(reviews.Keys);
      var k :| Listing.IsLeast(reviews.Keys, k);
      var rest := reviews - {k};
      assert rest.Keys == reviews.Keys - {k};
      TallyInRange(rest, t);
    }
  }

  /** ROUND(sum / count, 1) in tenths: the nearest tenth, halves rounded away from zero. */
  function Round1(sum: int, count: int): (tenths: int)
    requires count > 0
    ensures (2 * tenths - 1) * count <= 20 * sum <= (2 * tenths + 1) * count
    ensures sum >= 0 ==> 20 * sum < (2 * tenths + 1) * count
    ensures sum < 0 ==> (2 * tenths - 1) * count < 20 * sum
  {
    var q := (20 * (if sum >= 0 then sum else -sum) + count) / (2 * count);
    DivBounds(20 * (if sum >= 0 then sum else -sum) + count, 2 * count, q);
    if sum >= 0 then q else -q
  }

  lemma DivBounds(a: int, b: int, q: int)
    requires b > 0 && q == a / b
    ensures q * b <= a < q * b + b
  {
  }

  /** The stored `rating`: the rounded mean, or 0 when there is no rating (COALESCE(..., 0)). */
  function StoredRating(t: Tally): (tenths: int)
    ensures t.count == 0 ==> tenths == 0
  {
    if t.count == 0 then 0 else Round1(t.sum, t.count)
  }

  /** A mean of ratings in 1..5 is stored as 1.0 to 5.0. */
  lemma StoredRatingInRange(t: Tally)
    requires t.count > 0 && t.count <= t.sum <= 5 * t.count
    ensures 10 <= StoredRating(t) <= 50
  {
    var r := StoredRating(t);
    var n := t.count;
    if r > 50 {
      MulMonotone(101, 2 * r - 1, n);
    }
    if r < 10 {
      MulMonotone(2 * r + 1, 20, n);
    }
  }

  lemma MulMonotone(a: int, b: int, n: int)
    requires a <= b && n >= 0
    ensures a * n <= b * n
  {
    assert b * n - a * n == (b - a) * n;
  }

  /** A row's stored `total_ratings` and `rating` agree with the reviews it is rated by. */
  predicate Agrees(rating: int, totalRatings: int, reviews: map<int, Review>, t: Target)
  {
    totalRatings == TallyOf(reviews, t).count && rating == StoredRating(TallyOf(reviews, t))
  }

  predicate RestaurantsAgree(restaurants: map<int, Restaurant>, reviews: map<int, Review>)
  {
    forall id :: id in restaurants ==>
      Agrees(restaurants[id].rating, restaurants[id].totalRatings, reviews, OfRestaurant(id))
  }

  predicate PartnersAgree(partners: map<int, Partner>, reviews: map<int, Review>)
  {
    forall id :: id in partners ==>
      Agrees(partners[id].rating, partners[id].totalRatings, reviews, OfPartner(id))
  }

  /** The restaurants table after restaurant `id`'s total moves by `delta` and its mean is
      recomputed from `reviews`; a missing row is left alone, as an UPDATE matching no row. */
  function RestaurantRerated(restaurants: map<int, Restaurant>, reviews: map<int, Review>, id: int, delta: int)
    : (r: map<int, Restaurant>)
    ensures r.Keys == restaurants.Keys
    ensures forall k :: k in r && k != id ==> r[k] == restaurants[k]
    ensures id in r ==> r[id] == restaurants[id].(
      totalRatings := restaurants[id].totalRatings + delta,
      rating := StoredRating(TallyOf(reviews, OfRestaurant(id))))
  {
    if id in restaurants then
      restaurants[id := restaurants[id].(
        totalRatings := restaurants[id].totalRatings + delta,
        rating := StoredRating(TallyOf(reviews, OfRestaurant(id))))]
    else restaurants
  }

  /** The partners table after partner `id`'s total moves by `delta` and its mean is
      recomputed from `reviews`. */
  function PartnerRerated(partners: map<int, Partner>, reviews: map<int, Review>, id: int, delta: int)
    : (r: map<int, Partner>)
    ensures r.Keys == partners.Keys
    ensures forall k :: k in r && k != id ==> r[k] == partners[k]
    ensures id in r ==> r[id] == partners[id].(
      totalRatings := partners[id].totalRatings + delta,
      rating := StoredRating(TallyOf(reviews, OfPartner(id))))
  {
    if id in partners then
      partners[id := partners[id].(
        totalRatings := partners[id].totalRatings + delta,
        rating := StoredRating(TallyOf(reviews, OfPartner(id))))]
    else partners
  }
}
