# Nearby businesses and orders over Firestore — a Dafny model

This project models the request logic of a small Vercel/Express backend
that keeps businesses, their products and customer orders in Firestore.
It covers four handlers:

- **Nearby search** (`api/nearby.js`):
  - checks the coordinates and the radius (10 km by default, at most 100);
  - sends one range query per geohash range, with the `state`,
    `hasDelivery` and `isOpen` equality filters;
  - walks the returned documents once, keeping the first document seen
    for each id;
  - drops documents whose exact distance is past the radius, and those
    that fail the case-insensitive, trimmed category match;
  - builds the reply records, with `distanceMeters` rounded;
  - sorts them in place, stably, by rounded distance.
- **Order creation through the router** (`api/orders.js`, `POST /create`):
  - runs the field checks in a fixed order;
  - loops over the items, checking each against the stored product and
    adding `price * quantity` to the subtotal;
  - writes a new `pending` order whose total is the subtotal plus the
    delivery fee.
- **Order lifecycle** (`api/orders.js`, the two PATCH routes): a status
  update to `accepted` or `rejected`, and a payment proof that an
  accepted order alone takes.
- **The standalone order handler** (`api/orders/create.js`): the same
  intake as the router, except that it:
  - checks the HTTP method;
  - does not check `deliveryType`;
  - refuses with 500 a product whose stored price does not have type number;
  - names an unnamed product "Sin nombre".
- **Product creation** (`api/products/create.js`): required fields, the
  business check, and the stored record with its defaults and coercions.

Modules:

- `Common`: replies, failures, options.
- `Text`: JavaScript `toLowerCase` and `trim`.
- `Businesses`: business documents, admission of one document, and the
  specification of the discovery pass.
- `Ranking`: the in-place stable sort on an array.
- `Nearby`: the search handler, with its loops as methods.
- `Records`: stored orders and products, and NaN-propagating numbers.
- `Items`: the item loop of both order endpoints, with the item check as
  a parameter.
- `Store`: Firestore as a class whose fields are maps.
- `OrderRoutes`, `OrderHandler`, `Products`: the other handlers.

Document ids, `Date.now()`, the haversine distance and the geohash range
queries are parameters.

Facts about the search code that the model keeps:

- The search keeps the first document seen for each id. It keeps no
  minimum distance per id.
- It makes one pass over the returned documents.
- It sorts on the rounded distance only, with no tie-break on the name.
  Because the sort is stable, records at the same rounded distance stay
  in discovery order.
- It applies no range check to `lat` and `lng`.
- It does not skip a document that has no geohash. A document whose
  `latitude` or `longitude` is absent (undefined) is dropped: its
  distance is NaN, so it fails the radius check.

A stored price is modelled as JavaScript sees it: whether its type is
number, and the number arithmetic converts it to. The router multiplies
the conversion, so a stored `null` counts as 0 and `"12"` as 12. The
standalone handler refuses a price whose type is not number; a stored NaN
has type number, so it passes and makes the total NaN.

## Model

| member | source | states |
|---|---|---|
| Text.LowerChar | api/nearby.js:89 | upper-case Latin letters move 0x20 up, every other character is unchanged, and the result is never upper-case |
| Text.LowerAt | api/nearby.js:89 | `toLowerCase` lower-cases each character in place and leaves no upper-case letter |
| Text.TrimStartMeaning | api/nearby.js:89 | dropping leading white space keeps a suffix, removes only white space and stops at a non-space character |
| Text.TrimEndMeaning | api/nearby.js:89 | dropping trailing white space keeps a prefix, removes only white space and stops at a non-space character |
| Text.TrimBounds | api/nearby.js:89 | `trim` keeps the slice `s[i..j]` with only white space before `i` and after `j` |
| Text.TrimMeaning | api/nearby.js:89 | `trim` keeps a slice with white space only around it, and the slice starts and ends with non-space characters |
| Businesses.Round | api/nearby.js:121 | `Math.round` gives the integer within half a unit of the value, halves rounding up |
| Businesses.RoundMonotone | api/nearby.js:121 | rounding preserves order, so a record within the radius has a rounded distance at most the rounded radius |
| Businesses.NameMatches | api/nearby.js:88-90 | `some` holds iff some entry has a name whose lower-cased, trimmed form is the key |
| Businesses.InCategoryMeaning | api/nearby.js:86-92 | an empty category keeps every document; otherwise a document is kept iff its categories are an array with an entry whose normalised name equals the normalised category |
| Businesses.Admit | api/nearby.js:82-122 | a first-seen document yields a record iff it has a distance within `radiusKm * 1000` and passes the category filter; the record's `id` and `businessId` are the document id and `distanceMeters` is the rounded distance |
| Businesses.IdsSnoc | api/nearby.js:79-80 | marking a document seen adds exactly its id to the seen set |
| Businesses.DiscoveredSound | api/nearby.js:77-126 | every collected record comes from the first document with its id, and Admit accepts that document |
| Businesses.DiscoveredComplete | api/nearby.js:77-126 | every first-seen document that Admit accepts is collected |
| Businesses.DiscoveredDistinct | api/nearby.js:75-80 | the collected records have pairwise distinct ids |
| Businesses.DiscoveredStep | api/nearby.js:79-94 | one more document adds its record iff its id is new and Admit accepts it |
| Businesses.OrderedPairExtends | api/nearby.js:77-78 | two records discovered in order within a prefix of the documents are still in order in the whole sequence |
| Businesses.DiscoveredInOrder | api/nearby.js:77-126 | records are collected in the order of the first-seen documents they come from |
| Ranking.AtDistanceMembers | api/nearby.js:128 | the group at a rounded distance holds exactly the records at that distance |
| Ranking.AtDistanceConcat | api/nearby.js:128 | the group of a concatenation is the concatenation of the groups |
| Ranking.SameGroupsTrans | api/nearby.js:128 | having the same groups at every distance is transitive |
| Ranking.DistinctIdsPermutation | api/nearby.js:128 | reordering records with distinct ids keeps the ids distinct |
| Ranking.MoveDownIsStable | api/nearby.js:128 | moving an element before a run of strictly farther records leaves every distance group unchanged |
| Ranking.MoveDownSorted | api/nearby.js:128 | inserting the next record after the last record no farther than it extends the sorted prefix |
| Ranking.InsertLast | api/nearby.js:128 | one insertion step: the array is sorted up to `i + 1`, a permutation of the old one, and keeps every distance group |
| Ranking.SortByDistance | api/nearby.js:128 | the in-place sort leaves the array ascending by `distanceMeters`, a permutation of the input, with records of equal distance in their input order |
| Ranking.AtDistanceKeepsOrder | api/nearby.js:128 | two records at the same distance appear in the same order in the group at that distance |
| Ranking.AtDistanceInOrder | api/nearby.js:128 | two positions in a group come from two positions of the sequence in the same order |
| Ranking.SortedSameGroupsEqual | api/nearby.js:128 | two sorted sequences with the same group at every distance are equal |
| Ranking.StablySortedUnique | api/nearby.js:128 | a stable sort has exactly one possible outcome |
| Nearby.ParseQuery | api/nearby.js:47-55 | a missing or non-number `lat` or `lng` gives 400 first; otherwise the radius (10 when absent) is accepted iff `0 < radiusKm <= 100`, with 400 otherwise; there is no range check on the coordinates |
| Nearby.FlattenMembers | api/nearby.js:77-78 | the nested `forEach` visits exactly the documents of the snapshots |
| Nearby.FlattenStep | api/nearby.js:77-78 | one more snapshot appends its documents to the visited ones |
| Nearby.VisitStep | api/nearby.js:79-124 | one visited document marks its id seen and adds its record iff its id is new and Admit accepts it |
| Nearby.Visit | api/nearby.js:78-125 | the per-document callback keeps the seen set equal to the visited ids and the result equal to the discovery specification |
| Nearby.VisitSnapshot | api/nearby.js:78-125 | the loop over one snapshot keeps both invariants of the callback |
| Nearby.Discover | api/nearby.js:74-126 | the loops over all snapshots collect exactly the discovery specification on the flattened documents |
| Nearby.Search | api/nearby.js:74-128 | the result is the discovered records, stably sorted by rounded distance |
| Nearby.Handle | api/nearby.js:44-140 | GET gives the liveness reply; any method other than GET or POST gives 405; a POST validates before it issues any query; a failed query gives 500; otherwise it gives 200 with the stably sorted records of the range query it issued |
| Nearby.NearbyResults | api/nearby.js:74-128 | the result has distinct ids, holds only admitted first-seen documents, each within the rounded radius, holds all of them, and is ascending by distance |
| Nearby.NearbyStable | api/nearby.js:77-128 | records at equal rounded distance keep the order in which their documents were first seen |
| Records.Plus | api/orders.js:66 | a sum is a number iff both sides are, and is then their sum |
| Records.Times | api/orders.js:66 | a product by the quantity is NaN iff the price is, and is otherwise price times quantity |
| Records.SubtotalSnoc | api/orders.js:66 | one more line adds its price times quantity to the subtotal |
| Records.SubtotalNaN | api/orders.js:64-66 | the subtotal is NaN iff some line's stored price converts to NaN (undefined, a non-numeric string, or a stored NaN); null, "", booleans and numeric strings convert to numbers |
| Records.SubtotalAppend | api/orders.js:46-66 | the subtotal of two runs of lines is the sum of their subtotals |
| Records.NewOrder | api/orders.js:77-98 | a new order copies the request's business, customer, instructions and delivery type; it is `pending`, not seen by the owner, and has no proof; its fee defaults to 0 and its total is the subtotal plus the fee; its location is the request's for `delivery` and null otherwise |
| Store.Database.constructor | api/orders.js:5 | the store starts with the given businesses, products and orders |
| Store.Database.SetOrder | api/orders.js:100 | writing an order replaces that one document and changes nothing else |
| Store.Database.SetProduct | api/products/create.js:77 | writing a product replaces that one document and changes nothing else |
| Items.ValidatedItemsFailFast | api/orders.js:49-59 | once an item fails, the loop's outcome is that failure |
| Items.ValidatedItemsOk | api/orders.js:49-75 | the loop succeeds iff every item passes its check; the lines then match the items one for one, in order |
| Items.ValidatedItemsFirstFailure | api/orders/create.js:50-67 | a failing loop reports the failure of its first failing item |
| Items.ValidatedItemsNext | api/orders/create.js:50-77 | one more item extends the loop's outcome by that item's check |
| Items.SubtotalOfRequest | api/orders.js:46-66 | for a check that copies the stored price and the requested quantity, a successful loop's subtotal is the sum of stored price times requested quantity |
| OrderRoutes.RequestError | api/orders.js:26-36 | the checks run in order (`businessId`, `customerId`, a non-empty `items`, `deliveryType` in {delivery, pickup}, `location` for delivery), each failing with 400 and its own message; the request passes iff all hold |
| OrderRoutes.CheckItem | api/orders.js:50-74 | an item fails iff its `productId` is missing or `quantity <= 0` (400) or the product is not stored (404); otherwise the line takes the stored name and price and the request's quantity and notes |
| OrderRoutes.ValidateItems | api/orders.js:46-75 | the `for` loop with early returns computes the outcome of the item loop with this endpoint's check, and the subtotal of the converted stored prices |
| OrderRoutes.CreateOutcomeOk | api/orders.js:26-98 | an order is created iff the fields pass, the business exists and every item passes; it is pending, has one line per item with the stored name and price, and its total is the stored-price subtotal plus the fee |
| OrderRoutes.CreateOutcomeErr | api/orders.js:26-59 | a field failure comes first, then a missing business with 404 before any item is inspected, then the first failing item; every failure is a 400 or a 404 |
| OrderRoutes.CreateOrder | api/orders.js:11-110 | on success it writes exactly the new order under the generated id and replies 201 with it; on failure it writes nothing |
| OrderRoutes.StatusOutcome | api/orders.js:158-169 | only `accepted` and `rejected` are taken (400 otherwise), on an existing order (404 otherwise), whatever its current status; only the status changes |
| OrderRoutes.UpdateStatus | api/orders.js:153-176 | the status route writes only the status of that order on success, and nothing on failure |
| OrderRoutes.ProofOutcome | api/orders.js:121-140 | proof needs both fields non-empty (400), an existing order (404) and status `accepted` (400); only `comprobanteUrl` and `reference` change |
| OrderRoutes.UploadProof | api/orders.js:116-147 | the proof route writes only those two fields of that order on success, and nothing on failure |
| OrderRoutes.Lifecycle | api/orders.js:116-176 | a pending order takes no proof; an accepted one does; a rejected one does not, and can still be accepted |
| OrderRoutes.StatusesStayKnown | api/orders.js:81-176 | creation, status updates and proof uploads keep every stored status among pending, accepted and rejected |
| OrderHandler.RequestError | api/orders/create.js:34-38 | `businessId`, then `customerId`, then a non-empty `items`, each failing with 400; `deliveryType` is not checked |
| OrderHandler.CheckItem | api/orders/create.js:52-77 | an item fails with 400 (missing `productId` or `quantity <= 0`), 404 (no product) or 500 (stored price whose type is not number; a stored NaN passes); otherwise its line has the stored price and the stored name, or "Sin nombre" |
| OrderHandler.ValidateItems | api/orders/create.js:47-78 | the `for` loop with early returns computes the outcome of the item loop with this handler's check, and the subtotal of the stored prices |
| OrderHandler.CreateOutcomeOk | api/orders/create.js:34-100 | an order is created iff the fields pass, the business exists and every item passes; it is pending, with one checked line per item, each price of type number; its total is the stored-price subtotal plus the fee |
| OrderHandler.CreateOutcomeNaN | api/orders/create.js:64-100 | a stored NaN price passes the `typeof` test, and a created order's total is NaN iff one of its stored prices is NaN |
| OrderHandler.CreateOutcomeErr | api/orders/create.js:34-67 | a field failure comes first, then a missing business with 404 before any item is inspected, then the first failing item; a 500 comes only from a stored price whose type is not number |
| OrderHandler.AgreesWithRouter | api/orders/create.js:47-100 | when both create endpoints accept a request against the same store, their orders differ only in the names of unnamed products |
| OrderHandler.Handle | api/orders/create.js:23-114 | any method but POST gives 405; a missing body gives 500; on success it writes exactly the new order and replies 201 with it; on failure it writes nothing |
| Products.NewProduct | api/products/create.js:31-75 | the stored price has type number and is `Number(price)`, or 0 for NaN; text fields are copied when sent and default to "" when absent; non-array ingredients become `[]`; `available` is true unless a falsy value was sent; id, business and date come from the generated id, the request and the clock |
| Products.CreateOutcome | api/products/create.js:46-54 | a missing `businessId` gives 400, then a missing `name` gives 400, then a missing business gives 404; a product is created iff all pass |
| Products.Handle | api/products/create.js:25-88 | any method but POST gives 405; on success the record is stored under (business, generated id) and the 201 reply carries exactly the stored record; on failure nothing is stored |
| Products.CreatedProductIsOrderable | api/products/create.js:64 | a product created here always has a price of type number that is not NaN, so the standalone order handler accepts an item for it with the stored name and price |

## Left out

- The haversine formula (api/nearby.js:28-41) is floating-point trigonometry. It is a function parameter returning a `real`.
- The geohash bounds (`geohashQueryBounds`) and the range queries are a `Store` parameter. It maps the issued query to its snapshots, or to a failure.
- The `Promise.all` fan-out runs the range queries concurrently. It is modelled as an ordered sequence of snapshots. A failure of any query gives the same 500.
- Firebase Admin initialisation, dotenv, `console.*` logging, and the commented-out upload handler in api/products/create.js are plumbing or dead code. So are index.js and api/test.js.
- Firestore reads and writes are maps in a `Database` object. Its own rule that rejects `undefined` field values is not modelled.
- JavaScript numbers:
  - prices, fees and quantities are integers (for example cents), so fractional prices are not modelled;
  - NaN is modelled explicitly where the code can produce it (`Numeric`), but `Infinity` is not;
  - `lat`, `lng` and `radiusKm` are reals, so a NaN coordinate is not modelled;
  - a `radiusKm` that is not a number is not modelled: one that converts to NaN (such as `"abc"`) passes both radius comparisons and then keeps no document, while `null` and `""` convert to 0 and get 400.
- Dynamic JSON values are abstracted field by field:
  - a falsy string is "";
  - a value that is not an array or not a boolean is None;
  - a `null` text field sent to the product handler is not distinguished from an absent one.
- A missing `quantity` in an order item is not modelled: the code lets it through, because `undefined <= 0` is false, and computes NaN. `quantity` is always an integer here.
- A stored `latitude` or `longitude` of `null` is not modelled. Arithmetic reads it as 0, so the code measures the distance to that point and may keep the document; the model treats it like an absent coordinate and drops it.
- A category entry whose `name` is present but not a string is not modelled. The code throws a TypeError on `toLowerCase` for it, and the whole search answers 500; the model treats the entry as having no name.
- Text.LowerChar: `toLowerCase` is modelled on Basic Latin and Latin-1 letters only. Other scripts are left unchanged.
- Nearby.Handle: the 500 reply's `message: e.message` text is not modelled; only the `error` field is.
- OrderHandler.Handle: the 500 reply's `details: error.message` is not modelled.
- Products.Handle: on a missing body it states only a 500 with an `error` text. The code sends the runtime exception's message there.
- The router's `catch` block, which sends 500 when `req.body` is missing or a store access throws, is not modelled. `CreateOrder`, `UpdateStatus` and `UploadProof` take a parsed body.
- Timing metadata and pagination do not exist in the code and are not modelled.
