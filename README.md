# Ahara food delivery — a verified model of the order, review, menu, address, restaurant and delivery core

Ahara is a food-delivery system. It has an Express/PostgreSQL backend and a React customer app.
This project models, in Dafny, three parts of it:

- the backend controllers that place and pay for orders, move them through their statuses, hand
  them to delivery partners, keep restaurant and partner ratings, manage menus, restaurant
  profiles and customer addresses;
- the request-validation middleware in front of them;
- the customer app's shopping cart.

The database is one object, `Tables.Db`, whose fields are the tables the handlers read and write:

- `orders`, `menuItems`, `reviews`, `restaurants`, `partners` and `addresses` are maps keyed by id;
- `orderItems` and `transactions` are append-only sequences;
- a serial counter hands out new ids.

Each HTTP handler that writes is a module-level method taking the store `db: Db`. It modifies only the tables the handler writes.
The read-only handlers are functions of the tables they read: `Delivery.AvailableOrders`, `Delivery.MyDeliveries`,
`Restaurants.AllRestaurants`, `Menu.RestaurantMenu`, `Addresses.MyAddresses` and `Orders.CreatePaymentOrder`.
Each handler returns `Ok` or `Err` with the failure that picks the HTTP status (400, 404 or 500).
A failure leaves the tables as they were, as the handlers' `ROLLBACK` and early returns do.

Pure parts are functions, with lemmas about them:

- pricing: the 5% tax and the 40-rupee delivery fee;
- the paise conversion;
- status names;
- the `ROUND(AVG(...), 1)` ratings;
- the listing queries (`WHERE` / `ORDER BY` / `LIMIT` / `OFFSET`);
- the express-validator chains;
- the cart's reductions.

Module layout, one per source file:

- `Common` holds shared vocabulary.
- `Tables` holds the rows and the `Db` class.
- `Listing` holds the generic query pipeline: entries, filter, sort and page.
- `Ratings` holds the rating tallies behind the stored means.
- `Orders`, `Delivery`, `Reviews`, `Menu`, `Restaurants` and `Addresses` are the six controllers.
- `Validation` is `backend/middleware/validation.js`.
- `ShoppingCart` is `customer-app/src/context/CartContext.js`.

Inputs the system takes from outside are parameters:

- the clock: `now`;
- the Razorpay HMAC signature: `sign`;
- the validator library's e-mail test: `isEmail`;
- the browser's confirmation dialog: `confirm`.

Money is `real`, so it is exact. Ratings are stored in tenths.

## Model

| member | source | states |
|---|---|---|
| Common.HttpStatus | backend/controllers/orderController.js:501-532 | every failure maps to 400, 404 or 500; 404 exactly for a missing row, 500 exactly for a server error |
| Common.LowerStr | backend/controllers/restaurantController.js:24-36 | `LOWER(...)` keeps the length and lower-cases each ASCII capital, leaving other characters alone |
| Common.EqualsImpliesContains | backend/controllers/restaurantController.js:24-50 | a value equal to the filter ignoring case also matches it as a `LIKE '%filter%'` pattern |
| Common.ContainsEmpty | backend/controllers/restaurantController.js:46-50 | the empty search pattern matches every name |
| Tables.ParseStatus | backend/controllers/orderController.js:501-507 | a parsed status always prints back as the text it came from |
| Tables.ParseStatusName | backend/controllers/orderController.js:501-507 | reading a status's own name gives that status back (round trip) |
| Tables.StatusNameInjective | backend/controllers/deliveryController.js:353-359 | distinct statuses have distinct names |
| Tables.AllowedStatus | backend/controllers/orderController.js:501-507 | the text is accepted exactly when it names a status in the allowed list, and then it yields that status |
| Tables.Db.constructor | backend/controllers/orderController.js:95-127 | a store starts with the given restaurants and partners and no orders, items, reviews or addresses |
| Tables.Db.FreshId | backend/controllers/orderController.js:95-115 | `RETURNING id` yields an id unused in the table the row is inserted into; the serial advances by one |
| Listing.Entries | backend/controllers/restaurantController.js:12-19 | a table scan lists every row once, by increasing id, and nothing else |
| Listing.InEntries | backend/controllers/restaurantController.js:12-19 | a row is in the scan exactly when its id is in the table with that value |
| Listing.Filter | backend/controllers/restaurantController.js:18-50 | `WHERE` keeps exactly the rows that satisfy the condition and never returns more rows than it reads |
| Listing.FilterCounts | backend/controllers/restaurantController.js:18-50 | `WHERE` keeps each satisfying row exactly as often as it occurs and drops every other row |
| Listing.Insert | backend/controllers/restaurantController.js:52 | inserting into a sorted list keeps it sorted and adds exactly one element |
| Listing.Sort | backend/controllers/restaurantController.js:52 | `ORDER BY` yields a sorted permutation of its input |
| Listing.Page | backend/controllers/restaurantController.js:55-61 | `LIMIT`/`OFFSET` yield the rows from the offset, at most `limit` of them, in order |
| Listing.TopIsLeast | backend/controllers/restaurantController.js:52-57 | when a row is left off a full first page, every row on the page sorts before it |
| Listing.SortedFilter | backend/controllers/menuController.js:12-45 | filter then sort is sorted, holds exactly the matching rows, and repeats no row more often than the table |
| Listing.TopK | backend/controllers/deliveryController.js:203-206 | the first `k` rows of a sorted list are sorted, come from it, and precede every row left out |
| Listing.PageOfSorted | backend/controllers/restaurantController.js:55-61 | any page of a sorted result is sorted and drawn from it |
| Listing.PagesTile | backend/controllers/restaurantController.js:55-61 | consecutive pages of one ranked sequence concatenate to the larger page: `OFFSET o LIMIT a` then `OFFSET o+a LIMIT b` is `OFFSET o LIMIT a+b` |
| Listing.FilterEntriesCount | backend/controllers/restaurantController.js:66-67 | a `WHERE` scan of a table returns one row per id whose row passes, so its row count is the number of such ids |
| Listing.FilterStricter | backend/controllers/restaurantController.js:18-50 | a stricter `WHERE` never returns more rows |
| Listing.EntriesOnce | backend/controllers/restaurantController.js:12-19 | a scan holds each row at most once |
| Listing.StrLeTotal | backend/controllers/menuController.js:45 | text order compares any two strings |
| Listing.StrLeTransitive | backend/controllers/menuController.js:45 | text order is transitive |
| Listing.StrLeAntisymmetric | backend/controllers/menuController.js:45 | strings ordered both ways are equal |
| Listing.SortedKeys | backend/controllers/restaurantController.js:12-19 | the ids of a table in strictly increasing order, each exactly once |
| Listing.LeastExists | backend/controllers/restaurantController.js:12-19 | a non-empty id set has exactly one least id |
| Ratings.TallyRemove | backend/controllers/reviewController.js:471-498 | a table's rating count and sum are those without one review plus that review's rating |
| Ratings.TallyInsert | backend/controllers/reviewController.js:63-111 | inserting a new review adds exactly its rating to the count and sum |
| Ratings.TallyReplace | backend/controllers/reviewController.js:387-412 | replacing a review swaps its old rating for its new one in the count and sum |
| Ratings.TallyInRange | backend/controllers/reviewController.js:82-111 | with ratings from 1 to 5 the sum lies between the count and five times the count |
| Ratings.Round1 | backend/controllers/reviewController.js:86-89 | `ROUND(x, 1)` is the nearest tenth, with halves rounded away from zero |
| Ratings.StoredRating | backend/controllers/reviewController.js:485-498 | with no ratings left the stored mean is 0 |
| Ratings.StoredRatingInRange | backend/controllers/reviewController.js:82-111 | a stored mean of ratings from 1 to 5 lies between 1.0 and 5.0 |
| Ratings.RestaurantRerated | backend/controllers/reviewController.js:82-95 | only the named restaurant changes: its mean is recomputed from the reviews and its count moves by the step |
| Ratings.PartnerRerated | backend/controllers/reviewController.js:98-111 | only the named partner changes: its mean is recomputed and its count moves by the step |
| Orders.Ids | backend/controllers/orderController.js:55-64 | the set of menu item ids of the request: every requested id, and no other |
| Orders.IdsCountDistinct | backend/controllers/orderController.js:55-64 | the id set is as large as the item list exactly when no id repeats |
| Orders.Matched | backend/controllers/orderController.js:38-44 | the `WHERE id = ANY($1)` lookup, which does not filter by restaurant, holds exactly the requested ids that are on the menu, with their rows |
| Orders.MatchedCount | backend/controllers/orderController.js:58-64 | the lookup finds as many rows as were requested exactly when every requested id is on the menu and no id repeats |
| Orders.UnavailableNamesExact | backend/controllers/orderController.js:66-74 | the reported names are exactly those of found items marked unavailable |
| Orders.CheckOrder | backend/controllers/orderController.js:28-74 | an accepted order keeps the requested restaurant and items; an unavailable-items error lists only found, unavailable items |
| Orders.CheckOrderAccepts | backend/controllers/orderController.js:28-74 | an order passes exactly when it names a restaurant and a non-empty list whose items are all on that menu, distinct and available |
| Orders.CheckOrderUnavailable | backend/controllers/orderController.js:66-74 | when the check fails with unavailable items, the error names exactly the requested items that are on the menu and unavailable |
| Orders.SubtotalBounds | backend/controllers/orderController.js:77-88 | with non-negative prices and quantities, the subtotal is non-negative and covers each line's price times quantity |
| Orders.CheckOrderFixed | backend/controllers/orderController.js:28-88 | the corrected check accepts exactly the requests the handler accepts whose quantities are all at least 1; any other refusal is the handler's own |
| Orders.NegativeQuantityAccepted | backend/controllers/orderController.js:28-92 | the handler accepts a line with quantity -3, and the bill comes out negative; the corrected check refuses that request |
| Orders.FixedSubtotalBounds | backend/controllers/orderController.js:77-92 | under the corrected check, over non-negative menu prices, the subtotal is non-negative and the total is at least the delivery fee |
| Orders.FixedAcceptsOrderable | backend/controllers/orderController.js:28-74 | a request the corrected check accepts is orderable and asks for positive quantities |
| Orders.PositiveLinesBounds | backend/controllers/orderController.js:77-88 | positive quantities of items with non-negative prices give a non-negative subtotal that covers every line's cost |
| Orders.Price | backend/controllers/orderController.js:90-92 | the fee is 40, the tax is 5% of the subtotal and the total is the subtotal with tax plus the fee |
| Orders.PriceMonotone | backend/controllers/orderController.js:90-92 | a larger subtotal never gives a smaller total |
| Orders.PricedLines | backend/controllers/orderController.js:77-88 | one priced line per requested item, at the menu's price and the requested quantity |
| Orders.OrderItemRows | backend/controllers/orderController.js:120-127 | one `order_items` row per priced line, tied to the new order, with the line's price and quantity |
| Orders.NewOrder | backend/controllers/orderController.js:95-115 | the new order is pending with payment pending and online payment, carries the bill and the requested delivery address, and stores the requested special instructions exactly when they are non-empty |
| Orders.PriceLines | backend/controllers/orderController.js:77-88 | the pricing loop computes the subtotal and the priced lines |
| Orders.InsertOrderItems | backend/controllers/orderController.js:120-127 | the insert loop appends exactly the item rows of the order |
| Orders.CreateOrder | backend/controllers/orderController.js:28-127 | an order is created exactly when the checks pass; then it is stored under a fresh id with its bill and items; otherwise nothing changes |
| Orders.PlaceOrder | backend/controllers/orderController.js:77-127 | the transaction prices the lines from the menu, bills them, stores the order under a fresh id and appends its item rows |
| Orders.ToPaise | backend/controllers/orderController.js:195 | `Math.round(amount * 100)` is within half a paisa of the amount |
| Orders.ToPaiseExact | backend/controllers/orderController.js:195 | a whole number of paise survives the conversion unchanged |
| Orders.CreatePaymentOrder | backend/controllers/orderController.js:164-212 | a payment intent is made exactly for the caller's own pending order (404 for another's or a missing one, 400 if not pending), in INR for the order total in paise |
| Orders.SignedText | backend/controllers/orderController.js:239 | the signed text is the gateway order id, a `\|` and the payment id |
| Orders.Paid | backend/controllers/orderController.js:255-262 | payment marks the order paid and confirmed and changes nothing else |
| Orders.VerifyPayment | backend/controllers/orderController.js:239-290 | succeeds exactly when the signature matches and the order exists; then the order is paid and one transaction is recorded; a mismatch is a 400 and changes nothing |
| Orders.UpdateOrderStatus | backend/controllers/orderController.js:501-522 | succeeds exactly for an allowed status on an order of that restaurant; then only its status and time change |
| Delivery.Toggled | backend/controllers/deliveryController.js:141-151 | the partner's availability flips and nothing else but the time changes |
| Delivery.ToggleTwice | backend/controllers/deliveryController.js:141-151 | toggling twice restores the availability |
| Delivery.ToggleAvailability | backend/controllers/deliveryController.js:141-151 | a partner row is toggled exactly when it exists; the new availability is returned |
| Delivery.CreatedAtOrders | backend/controllers/deliveryController.js:203-206 | oldest-first and newest-first are total preorders |
| Delivery.AvailableOrders | backend/controllers/deliveryController.js:171-208 | an unknown partner is a server error; an offline partner sees no orders |
| Delivery.AvailableOrdersSound | backend/controllers/deliveryController.js:171-208 | the list is oldest first, holds at most 20 orders, and only ready orders of the table that are unassigned or already assigned to the caller |
| Delivery.AvailableOrdersComplete | backend/controllers/deliveryController.js:203-206 | an open order left off the list means the list is full and every listed order is at least as old |
| Delivery.MyDeliveriesExact | backend/controllers/deliveryController.js:323-325 | a partner's deliveries are exactly the orders assigned to them whose status is `picked_up` or `in_transit`, newest first, each once |
| Delivery.Assigned | backend/controllers/deliveryController.js:272-280 | acceptance assigns the partner and sets picked-up, changing nothing else but the time |
| Delivery.AcceptOrder | backend/controllers/deliveryController.js:245-280 | 404 for a missing order, 400 for one taken by another partner or not ready; otherwise the order is assigned to the caller |
| Delivery.OpenOrdersAreAcceptable | backend/controllers/deliveryController.js:196-206 | an order is listed as open exactly when acceptance would take it |
| Delivery.DeliveryUpdated | backend/controllers/deliveryController.js:363-370 | the status and time change; the delivery time is set exactly when the order is delivered |
| Delivery.Located | backend/controllers/deliveryController.js:380-387 | the partner's coordinates are set and nothing else but the time |
| Delivery.UpdateDeliveryStatus | backend/controllers/deliveryController.js:353-387 | succeeds exactly for an allowed status on an order assigned to the caller; the caller's location is stored exactly when both coordinates are truthy; an error changes nothing |
| Reviews.RatingOrNull | backend/controllers/reviewController.js:63-79 | a falsy rating is stored as NULL, a truthy one as given |
| Reviews.TextOrNull | backend/controllers/reviewController.js:63-79 | an empty review text is stored as NULL |
| Reviews.InsertKeepsOneReviewPerOrder | backend/controllers/reviewController.js:54-79 | inserting a review for an unreviewed order keeps one review per order |
| Reviews.NewReview | backend/controllers/reviewController.js:63-79 | the review row carries the order, the customer, the order's restaurant and partner, and the ratings given |
| Reviews.SubmitKeepsRestaurants | backend/controllers/reviewController.js:82-95 | for a new review id and a restaurant rating that is not 0, if every restaurant's stored mean and count agreed with its reviews before the submission, they agree after it |
| Reviews.SubmitKeepsPartners | backend/controllers/reviewController.js:98-111 | for a new review id, a delivery rating that is not 0 and no partner with id 0, if every partner's stored mean and count agreed with its reviews before the submission, they agree after it |
| Reviews.SubmitReview | backend/controllers/reviewController.js:23-111 | 404 unless the order is the caller's, 400 unless delivered or if already reviewed; on success one review is added and the aggregates stay in agreement |
| Reviews.InsertReview | backend/controllers/reviewController.js:62-111 | the review row goes in under a fresh id and the restaurant's and partner's aggregates are recomputed from the reviews; one review per order and the aggregates' agreement with the reviews are kept |
| Reviews.CanReviewOrder | backend/controllers/reviewController.js:279-319 | the answer is 404 for another's order, not-yet-delivered, already-reviewed or eligible, each exactly in its case |
| Reviews.Coalesce | backend/controllers/reviewController.js:387-399 | `COALESCE($n, column)` keeps the old value exactly when none is supplied |
| Reviews.Patched | backend/controllers/reviewController.js:387-399 | an edit replaces exactly the supplied ratings and texts and keeps the order, author, restaurant and partner |
| Reviews.EditKeepsRestaurants | backend/controllers/reviewController.js:368-398 | when the review already had a restaurant rating, an edit keeps restaurant aggregates in agreement unless the new rating is 0; a 0 is stored, the rows stay, and the restaurant's ratings lose the old value |
| Reviews.EditZeroLeavesMeanStale | backend/controllers/reviewController.js:368-398 | as written, a review rating its restaurant 4 (stored 4.0 from one rating) edited to 0 leaves the stored 4.0 while the reviews average 0.0 |
| Reviews.EditFixedKeepsRestaurants | backend/controllers/reviewController.js:368-398 | the corrected edit, which recomputes for any supplied rating that changes, 0 included, keeps every restaurant's aggregate in agreement |
| Reviews.EditKeepsPartners | backend/controllers/reviewController.js:368-412 | when the review already had a delivery rating or gets none, an edit keeps partner aggregates in agreement unless the new delivery rating is 0; a 0 is stored, the rows stay, and the partner's ratings lose the old value |
| Reviews.EditMiscountsFirstDeliveryRating | backend/controllers/reviewController.js:401-412 | as written, a first delivery rating added by an edit leaves the partner's count one short |
| Reviews.EditFixedKeepsPartners | backend/controllers/reviewController.js:401-412 | the corrected edit, which recomputes for any supplied delivery rating that changes, 0 included, and counts a first delivery rating, keeps every partner's aggregate in agreement |
| Reviews.UpdateReview | backend/controllers/reviewController.js:349-412 | only the author may edit (404 otherwise); the review becomes the patched one; the restaurant's (partner's) mean is recomputed only when a truthy rating different from the stored one is supplied, and otherwise stays as it was |
| Reviews.DeleteKeepsRestaurants | backend/controllers/reviewController.js:471-482 | deleting a review with a restaurant rating keeps restaurant aggregates in agreement |
| Reviews.DeleteKeepsPartners | backend/controllers/reviewController.js:485-498 | deleting a review with a delivery rating keeps partner aggregates in agreement |
| Reviews.DeleteMiscountsUnratedReview | backend/controllers/reviewController.js:485-498 | as written, deleting a review with a partner but no delivery rating leaves the partner's count one short of its ratings |
| Reviews.DeleteFixedKeepsPartners | backend/controllers/reviewController.js:485-498 | the corrected deletion keeps every partner's aggregate in agreement |
| Reviews.DeleteReview | backend/controllers/reviewController.js:447-498 | only the author may delete (404 otherwise); the review goes and the aggregates are recomputed from the rest |
| Menu.NewMenuItem | backend/controllers/menuController.js:81-103 | the new item has the given name and price, the category or `Main Course`, vegetarian only if `true`, available unless `false` |
| Menu.AddMenuItem | backend/controllers/menuController.js:81-103 | an item is added exactly when name and price are truthy; it gets a fresh id; otherwise 400 and no change |
| Menu.StageFields | backend/controllers/menuController.js:155-189 | after the first k tests (truthiness for name, price and category, `!== undefined` for the others), exactly the fields passing them are set |
| Menu.PushedIffSupplied | backend/controllers/menuController.js:155-196 | the SET list is non-empty exactly when some field is supplied |
| Menu.PatchChangesOnlySupplied | backend/controllers/menuController.js:155-189 | a field changes only when the patch supplies it, each supplied field takes its new value, the restaurant is kept and `updated_at` is the time of the patch |
| Menu.PatchIdempotent | backend/controllers/menuController.js:155-198 | applying the same patch twice equals applying it once |
| Menu.SetList | backend/controllers/menuController.js:151-190 | the sequence of checks yields an empty SET list exactly when nothing is supplied, and the patched item |
| Menu.PushDescriptive | backend/controllers/menuController.js:155-173 | the name, description, price and category checks give the first four stages |
| Menu.PushFlags | backend/controllers/menuController.js:175-189 | the vegetarian, availability and image checks complete the stages |
| Menu.UpdateMenuItem | backend/controllers/menuController.js:139-210 | 404 unless the item is the restaurant's, 400 with no fields; otherwise the item becomes the patched one |
| Menu.ToggledItem | backend/controllers/menuController.js:296-310 | availability flips, the row is stamped with the time, and the owner, name, description, price, category, vegetarian flag and image are kept |
| Menu.ToggleItemAvailability | backend/controllers/menuController.js:296-310 | the item is toggled exactly when it belongs to the restaurant (404 otherwise) |
| Menu.ToggleItemTwice | backend/controllers/menuController.js:296-310 | toggling twice restores availability |
| Menu.DeleteMenuItem | backend/controllers/menuController.js:233-243 | the item is removed exactly when it belongs to the restaurant (404 otherwise) |
| Menu.CategoryThenNameOrders | backend/controllers/menuController.js:45 | `ORDER BY category, name` is a total preorder |
| Menu.CategoryThenNameTransitive | backend/controllers/menuController.js:45 | the category-then-name order is transitive |
| Menu.RestaurantMenuExact | backend/controllers/menuController.js:12-45 | the menu lists exactly the restaurant's items that match the category, vegetarian and availability filters, sorted by category then name |
| Menu.UnfilteredMenuIsWholeMenu | backend/controllers/menuController.js:12-45 | with no filters every item of the restaurant is listed |
| Restaurants.BestRatedFirstOrders | backend/controllers/restaurantController.js:52 | `ORDER BY rating DESC, total_ratings DESC` is a total preorder |
| Restaurants.RankedExact | backend/controllers/restaurantController.js:18-52 | the ranking holds exactly the active restaurants that pass every filter, best rated first |
| Restaurants.AllRestaurantsSound | backend/controllers/restaurantController.js:8-74 | the page is at most `limit` long, best rated first, and holds only rows of the table that pass every filter |
| Restaurants.FirstPageComplete | backend/controllers/restaurantController.js:52-61 | a matching restaurant left off the first page means the page is full and ranks no lower |
| Restaurants.TotalCountsActive | backend/controllers/restaurantController.js:66-72 | the reported total is the number of active restaurants, whatever the filters and the page |
| Restaurants.RowsWithinTotal | backend/controllers/restaurantController.js:18-72 | a page never holds more rows than the reported total |
| Restaurants.StageFields | backend/controllers/restaurantController.js:139-178 | after the first k checks exactly the supplied profile fields among them are set |
| Restaurants.PushedIffSupplied | backend/controllers/restaurantController.js:139-185 | the SET list is non-empty exactly when some field is supplied |
| Restaurants.PatchKeepsRatings | backend/controllers/restaurantController.js:139-196 | a profile update never touches the rating, the count or the active flag; name, phone, city and image change only to a supplied non-empty value |
| Restaurants.SetList | backend/controllers/restaurantController.js:139-185 | the checks yield an empty SET list exactly when nothing is supplied |
| Restaurants.PushContact | backend/controllers/restaurantController.js:139-158 | the name, phone, address and city checks give the first four stages |
| Restaurants.PushService | backend/controllers/restaurantController.js:159-178 | the cuisine, hours and image checks complete the stages |
| Restaurants.UpdateRestaurantProfile | backend/controllers/restaurantController.js:139-204 | 400 with no fields; otherwise the profile becomes the patched one, or no row when the restaurant is missing |
| Addresses.ClearedDefaults | backend/controllers/addressController.js:51-57 | clearing unsets the default flag of every address of the user and changes nothing else |
| Addresses.ClearedKeepsAtMostOne | backend/controllers/addressController.js:51-57 | after clearing, no user has two default addresses and this user has none |
| Addresses.ClearDefaults | backend/controllers/addressController.js:51-57 | the `UPDATE ... SET is_default = false` statement leaves exactly the cleared table |
| Addresses.DefaultAfterClear | backend/controllers/addressController.js:51-75 | a default address stored after clearing is the user's only default |
| Addresses.NonDefaultKeepsAtMostOne | backend/controllers/addressController.js:59-75 | storing a non-default address keeps at most one default per user |
| Addresses.ReplaceDefaultKeepsAtMostOne | backend/controllers/addressController.js:133-169 | rewriting a user's sole default keeps at most one default per user |
| Addresses.NewAddress | backend/controllers/addressController.js:59-75 | the new address carries the given owner, lines, city, state and pincode and the time; it is a default exactly when `is_default` is `true`; line 2, latitude and longitude are stored, with the given value, exactly when they are truthy, and are NULL otherwise |
| Addresses.AddAddress | backend/controllers/addressController.js:51-75 | a fresh id is used; a default address first clears the user's others and is then the only default; other users are untouched |
| Addresses.StageFields | backend/controllers/addressController.js:133-162 | after the first k checks exactly the supplied fields among them are set |
| Addresses.PushedIffSupplied | backend/controllers/addressController.js:133-169 | the SET list is non-empty exactly when some field is supplied |
| Addresses.PatchChangesOnlySupplied | backend/controllers/addressController.js:133-162 | a patch changes exactly the supplied fields and keeps the owner |
| Addresses.PatchKeepsAtMostOne | backend/controllers/addressController.js:122-181 | an update keeps at most one default per user, and a made-default address is the user's only default |
| Addresses.SetList | backend/controllers/addressController.js:133-169 | the checks yield an empty SET list exactly when nothing is supplied, and the patched address |
| Addresses.UpdateAddress | backend/controllers/addressController.js:109-181 | 404 unless the address is the caller's, 400 with no fields; otherwise the patched address is stored and at most one default per user is kept |
| Addresses.DeleteAddress | backend/controllers/addressController.js:206-216 | the address is removed exactly when it is the caller's (404 otherwise) |
| Addresses.DefaultThenNewestOrders | backend/controllers/addressController.js:12-14 | `ORDER BY is_default DESC, created_at DESC` is a total preorder |
| Addresses.MyAddressesExact | backend/controllers/addressController.js:12-14 | the list holds exactly the caller's addresses, default first then newest |
| Addresses.DefaultListedFirst | backend/controllers/addressController.js:12-14 | when the caller has a default address, it is listed first |
| Validation.Text | backend/middleware/validation.js:22-43 | a missing or null field reads as the empty string |
| Validation.TrimStart | backend/middleware/validation.js:23-26 | leading white space is dropped and the rest kept |
| Validation.TrimEnd | backend/middleware/validation.js:23-26 | trailing white space is dropped and the rest kept |
| Validation.Trim | backend/middleware/validation.js:23-26 | `trim()` yields a string starting and ending with a non-space |
| Validation.TrimKeepsInner | backend/middleware/validation.js:23-26 | a string without edge spaces is left as it is |
| Validation.TrimStripsEnds | backend/middleware/validation.js:23-26 | any white-space padding around such a string is removed exactly |
| Validation.TrimIdempotent | backend/middleware/validation.js:23-26 | trimming twice is trimming once |
| Validation.DecimalValue | backend/middleware/validation.js:107-109 | a number's decimal digits read back as the number |
| Validation.ParseIntDecimal | backend/middleware/validation.js:145-147 | `isInt` reads a number's decimal numeral back as that number |
| Validation.ParseFloatDecimal | backend/middleware/validation.js:107-109 | `isFloat` reads a numeral as its value, and with a minus as its negation |
| Validation.ParseFloatNumeral | backend/middleware/validation.js:107-109 | any digit string reads as its value |
| Validation.NegatedNumeral | backend/middleware/validation.js:107-109 | a minus sign before a digit string reads as minus its value |
| Validation.Check | backend/middleware/validation.js:22-43 | a check yields no message exactly when it passes |
| Validation.PhonePatternValue | backend/middleware/validation.js:37-40 | `/^[6-9]\d{9}$/` accepts a ten-digit string exactly when its value is between 6000000000 and 9999999999 |
| Validation.RatingDecimal | backend/middleware/validation.js:137-147 | a rating numeral is accepted exactly for 1 to 5 |
| Validation.NameChain | backend/middleware/validation.js:23-26 | the name passes exactly when its trimmed text measures at least 2, counting code points other than U+FE0E and U+FE0F |
| Validation.EmailChain | backend/middleware/validation.js:28-31 | the e-mail passes exactly when the trimmed text is non-empty and an e-mail |
| Validation.PasswordChain | backend/middleware/validation.js:33-35 | the password passes exactly when it measures at least 6, counting code points other than U+FE0E and U+FE0F |
| Validation.MeasuredLength | backend/middleware/validation.js:23-35 | the `isLength` measure is at most the number of code points, and equal to it exactly when no variation selector occurs |
| Validation.SelectorNotCounted | backend/middleware/validation.js:33-35 | a six-character password whose last character is U+FE0F is refused |
| Validation.PhoneChain | backend/middleware/validation.js:37-40 | the phone passes exactly when the trimmed text matches the Indian mobile pattern |
| Validation.RequiredChain | backend/middleware/validation.js:48-58 | a required field passes exactly when its (trimmed) text is non-empty |
| Validation.OptionalChain | backend/middleware/validation.js:119-125 | an optional field passes exactly when it is missing or its check holds; null is checked |
| Validation.SignupAccepted | backend/middleware/validation.js:22-43 | a signup body is accepted exactly when all four fields pass |
| Validation.LoginErrors | backend/middleware/validation.js:48-58 | a login body is accepted exactly when the e-mail is valid and a password is given |
| Validation.RestaurantSignupErrors | backend/middleware/validation.js:63-96 | a restaurant signup is accepted exactly when every required field passes |
| Validation.MenuItemAccepted | backend/middleware/validation.js:101-128 | a menu item body is accepted exactly when the name, a non-negative float price and the optional flags pass |
| Validation.NegativePriceRefused | backend/middleware/validation.js:107-109 | any price text that reads as a negative number is refused, and a non-negative numeral price with a valid name is accepted |
| Validation.ReviewAccepted | backend/middleware/validation.js:133-154 | a review body is accepted exactly when the order id is non-empty, the restaurant rating is 1 to 5 and the delivery rating is absent or 1 to 5 |
| Validation.Validate | backend/middleware/validation.js:7-17 | the request goes on exactly when there are no errors; otherwise 400 with every message |
| ShoppingCart.Find | customer-app/src/context/CartContext.js:55 | `cart.find` yields a line with the id exactly when one exists |
| ShoppingCart.Bumped | customer-app/src/context/CartContext.js:57-65 | the line with the id gets one more unit and every other line is kept |
| ShoppingCart.Without | customer-app/src/context/CartContext.js:74-83 | removal keeps exactly the lines with other ids |
| ShoppingCart.WithQuantity | customer-app/src/context/CartContext.js:85-96 | the line with the id gets the new quantity and every other line is kept |
| ShoppingCart.UniqueOccurrence | customer-app/src/context/CartContext.js:55-68 | with distinct ids an id occurs once if found and never otherwise |
| ShoppingCart.WithoutKeepsUnique | customer-app/src/context/CartContext.js:74-83 | removal keeps ids distinct |
| ShoppingCart.CountBumped | customer-app/src/context/CartContext.js:57-65 | bumping raises the item count by the number of matching lines |
| ShoppingCart.TotalBumped | customer-app/src/context/CartContext.js:57-65 | bumping raises the total by the matching lines' prices |
| ShoppingCart.UniquePriceSum | customer-app/src/context/CartContext.js:105-107 | with distinct ids the matching prices sum to the found line's price |
| ShoppingCart.CountAppend | customer-app/src/context/CartContext.js:66-68 | count and total add up over concatenation |
| ShoppingCart.AddedCountsOne | customer-app/src/context/CartContext.js:55-68 | adding an item raises the count by one and the total by one unit price: the stored entry's price when the id is already in the cart, the new item's price otherwise |
| ShoppingCart.AddedKeepsInvariant | customer-app/src/context/CartContext.js:55-68 | adding keeps ids distinct and quantities positive, and the item is then in the cart |
| ShoppingCart.CountWithout | customer-app/src/context/CartContext.js:74-83 | removal lowers the count by the removed quantity |
| ShoppingCart.CountWithQuantity | customer-app/src/context/CartContext.js:85-96 | setting a quantity changes the count by the difference |
| ShoppingCart.WithoutAbsent | customer-app/src/context/CartContext.js:74-83 | removing an absent id changes nothing |
| ShoppingCart.SwitchKeepsOldItems | customer-app/src/context/CartContext.js:41-68 | as written, a confirmed switch of restaurant keeps every old line |
| ShoppingCart.SwitchMixesRestaurants | customer-app/src/context/CartContext.js:41-68 | as written, switching from restaurant 7 to 9 leaves a cart with items from both |
| ShoppingCart.SwitchedItemsFromOneRestaurant | customer-app/src/context/CartContext.js:41-68 | the corrected switch leaves only items of the new restaurant |
| ShoppingCart.Cart.constructor | customer-app/src/context/CartContext.js:15-16 | the cart starts empty with no restaurant |
| ShoppingCart.Cart.AddToCart | customer-app/src/context/CartContext.js:39-72 | refused only when the user declines a switch (nothing changes); otherwise the item is added or bumped, the restaurant set, and the count rises by one |
| ShoppingCart.Cart.RemoveFromCart | customer-app/src/context/CartContext.js:74-83 | the line goes, the count drops by its quantity, and an emptied cart forgets its restaurant |
| ShoppingCart.Cart.UpdateQuantity | customer-app/src/context/CartContext.js:85-96 | a quantity of 0 or less removes the line; otherwise it is set and the count follows |
| ShoppingCart.Cart.ClearCart | customer-app/src/context/CartContext.js:98-103 | the cart becomes empty with no restaurant |
| ShoppingCart.Cart.CartTotal | customer-app/src/context/CartContext.js:105-107 | an empty cart totals 0, and a cart with non-negative prices (its quantities are positive) never totals below 0 |
| ShoppingCart.TotalNonNegative | customer-app/src/context/CartContext.js:105-107 | positive quantities and non-negative prices give a non-negative total, by induction over the lines |
| ShoppingCart.Cart.ItemCount | customer-app/src/context/CartContext.js:109-111 | the badge count of a cart with positive quantities is at least its number of lines, and equals it exactly when every quantity is 1 |
| ShoppingCart.CountAtLeastLength | customer-app/src/context/CartContext.js:109-111 | with positive quantities the count is at least the number of lines |
| ShoppingCart.CountIsLength | customer-app/src/context/CartContext.js:109-111 | with positive quantities the count equals the number of lines exactly when every quantity is 1 |

## Left out

- Database failures: a failing query (500) is modelled only where a handler maps a missing row to a server error. Connection errors and constraint violations are outside the model.
- Concurrency: each handler runs alone, and a transaction is one step. The race between two partners accepting the same order is not modelled.
- The HMAC-SHA256 signature and the Razorpay client are outside the model. The signature is the parameter `sign`, and the gateway call is assumed to succeed.
- Authentication, JWT handling and the role middleware are outside the model. The caller's id arrives as a parameter.
- Validation.EmailChain: `isEmail` is a parameter; the validator library's e-mail grammar and `normalizeEmail()` are not modelled.
- Validation.ParseFloat: `isFloat` is read exactly over the rationals. Binary rounding is not modelled, so an underflowing value such as `-1e-400` counts as negative, whereas JavaScript reads it as -0.
- Orders.ToPaise: `toFixed(2)` and other floating-point rounding of money are not modelled. Amounts are exact reals, and `Math.round` is floor(x + 1/2).
- JavaScript truthiness is modelled for the field types the handlers receive (numbers, strings, booleans). String-versus-number coercion of request fields is not modelled.
- Postgres text ordering is modelled as character-code order. Locale collation is not modelled.
- Common.LowerStr: lower-cases ASCII capitals only. Under a UTF-8 database `LOWER` also folds other letters (É to é), so a search that matches only through such a letter is not modelled.
- Restaurants.AllRestaurants: rating ties under `ORDER BY rating DESC, total_ratings DESC` are broken by increasing id, the same way on every request. Postgres leaves tied rows in no fixed order, so two page requests of the source can repeat or skip tied restaurants. Listing.PagesTile holds of the model's single ranking, not across separate queries.
- Restaurants.AllRestaurants: `limit` and `offset` are natural numbers and `min_rating` a number. The source passes the raw query text through `parseInt` and `parseFloat`; a negative, empty or non-numeric `limit` or `offset`, or a non-numeric `min_rating`, makes Postgres reject the query, and the handler answers 500. That error path is not modelled.
- Validation.Trim: the validators' `trim()` also rewrites the request body before the handler runs (the menu item's name, the review texts, the signup fields). The handler models take the body as given and do not compose the two, so a handler stores untrimmed text where the source stores trimmed text.
- The review routes are never mounted: `backend/server.js:56-63` mounts every router except the review one, so in the shipped server each `/api/reviews/*` request reaches the 404 fallback. The model treats the review handlers as reachable endpoints, as the customer app's API client expects.
- `%` and `_` inside a search string act as `LIKE` wildcards in the source. The model treats them literally.
- The validators model each body field as missing, null or text. Array and object values are not modelled.
- `localStorage` persistence of the cart and React's batching of state updates are not modelled. The cart methods model the final state that the updates leave.
- `window.confirm` is the boolean parameter `confirm`.
- Orders.SubtotalBounds: holds only for non-negative prices and quantities. The order handler checks neither: `POST /orders/create` runs no validator (`backend/routes/orderRoutes.js:18`), and the handler never tests `quantity` (see Findings).
- Orders.FixedSubtotalBounds: assumes every menu price is non-negative. `POST /menu` validates `price` with `isFloat({ min: 0 })`, but `PUT /menu/:item_id` runs no validator (`backend/routes/menuRoutes.js:23`) and stores any truthy price, negatives included (`backend/controllers/menuController.js:165-169`). The model does not keep non-negative prices as a store invariant, so a negative bill through a negative price is possible in the model too.
- Tables.Db.FreshId: one counter serves every table, so ids never repeat across tables. Postgres gives each table its own SERIAL sequence, so an order and a menu item can share an id.
- ShoppingCart.Cart.AddToCart: requires the cart invariant (distinct ids, positive quantities, restaurant set exactly when items are present), which every cart method keeps.
- ShoppingCart.Cart.UpdateQuantity: quantities are integers. A fractional quantity from the UI is not modelled.
- Order line quantities (`LineRequest.quantity`) are integers. The order handler prices any JSON number (`price * item.quantity`, `backend/controllers/orderController.js:77-88`), so a fractional quantity is accepted there and is not modelled.
- Optional booleans of the menu and address patches (`MenuPatch`, `AddressPatch`) are absent, `true` or `false`. JSON `null` passes the `!== undefined` tests and writes NULL into `is_vegetarian`, `is_available` or `is_default` (`backend/controllers/menuController.js:175-184`, `backend/controllers/addressController.js:158-162`); that case is not modelled.
- Controllers and handlers outside this model are not part of it: `getMyMenu`, `getRestaurantById`, `getOrderDetails`, `getMyOrders`, `getRestaurantOrders`, the partner profile and earnings handlers, `getRestaurantReviews`, admin and auth.

## Findings

| source | as written | input that shows it | evidently intended | confidence | as-written member | corrected member |
|---|---|---|---|---|---|---|
| backend/controllers/orderController.js:28-88 | no line's `quantity` is checked, and the route runs no validator, so a negative or zero quantity is priced as given | two available items at 100.0 requested as `[{1, quantity 1}, {2, quantity -3}]` pass every check; the subtotal is -200.0 and the total is -170.0 | refuse any line whose quantity is below 1 with a 400 before pricing | not executed | Orders.NegativeQuantityAccepted | Orders.FixedSubtotalBounds |
| backend/controllers/reviewController.js:485-498 | deleting a review lowers the partner's `total_ratings` whenever the review names a partner | a review with a delivery partner but no delivery rating is deleted; the partner's count drops although none of its ratings went away | lower the count only when the deleted review carried a delivery rating, as submission raises it only then | not executed | Reviews.DeleteMiscountsUnratedReview | Reviews.DeleteFixedKeepsPartners |
| backend/controllers/reviewController.js:401-412 | an edit that gives a review its first delivery rating recomputes the partner's mean but leaves `total_ratings` | a review without a delivery rating is edited to give the partner 4 stars; the stored count is one short of the ratings | raise the count by one when the edit adds the first delivery rating | not executed | Reviews.EditMiscountsFirstDeliveryRating | Reviews.EditFixedKeepsPartners |
| backend/controllers/reviewController.js:368-412 | PUT runs no validator, so a rating of 0 is stored by `COALESCE`, but the falsy 0 skips the recompute | a review rating its restaurant 4 (stored 4.0 from one rating) is edited to `restaurant_rating: 0`; the reviews now average 0.0 while the stored rating stays 4.0 (likewise for a delivery rating) | recompute whenever a rating is supplied and differs, 0 included | not executed | Reviews.EditZeroLeavesMeanStale | Reviews.EditFixedKeepsRestaurants |
| customer-app/src/context/CartContext.js:41-68 | after a confirmed switch of restaurant, the old items are kept: `setCart([])` is overwritten by the update built from the old `cart` | a cart with one Dosa from restaurant 7, then Pizza from restaurant 9 with the switch confirmed, leaves both items under restaurant 9 | empty the cart, then add the new item | not executed | ShoppingCart.SwitchMixesRestaurants | ShoppingCart.SwitchedItemsFromOneRestaurant |
