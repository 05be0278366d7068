# Product item details view — a Dafny model

This project models the logic of the `ProductItemDetails` React component of the
NxtTrendz product details page (`src/components/ProductItemDetails/index.js`).
The component fetches one product and its similar products from the product API,
keeps a quantity counter, and renders one of four branches depending on the fetch
phase.

What is modelled:

- **Records** (`product_records.dfy`, module `ProductRecords`): the API's
  snake_case product record (`RawProduct`), the camelCase details record
  (`ProductDetails`) and the similar-product record (`SimilarProduct`, the
  details shape plus `style`). `NormaliseDetails` is the object literal of the
  success branch, `NormaliseSimilarProduct` the function given to `.map`, and
  `NormaliseSimilar` the `.map` itself. Each is paired with an encoder back to
  the API's shape, and the round trips are proved.
- **Component** (`product_item_details.dfy`, module `ProductItemDetails`): the
  state (`State`: `productItemDetails`, `similarProducts`, `resStatus`,
  `errorMsg`, `quantity`) and one function per state change. `Began` is the
  first `setState` of `getProducts` and `Completed` applies a response.
  `IncreasedQuantity` and `DecreasedQuantity` are the two updaters.
  A route update refetches when `prevId != id`, the comparison of
  `componentDidUpdate`. `Render` is
  `renderViews`, returning a tag for the branch together with the state that
  the branch shows. `Run` applies a sequence of events, and the lemmas about it
  give the invariants: the quantity is never below 1, and a successful phase
  has product details.
- **The class** `ProductItemDetails.Component` has the five state fields as
  mutable fields. Its methods (`BeginFetch`, `CompleteFetch`,
  `ComponentDidMount`, `ComponentDidUpdate`, `IncreaseQuantity`,
  `DecreaseQuantity`, `RenderViews`) are proved to change the state exactly as
  the functions above say, and to keep `Valid()`.

The network request is an input. `getProducts` is split around its two
`await`s (the `fetch` and `response.json()`): `BeginFetch` runs before the
request, and `CompleteFetch(response)` runs after both, on the `Response` value
(the `ok` flag and the parsed body) that came back.

The initial `productItemDetails` is the empty object `{}`. The model writes it
as `None`, and a stored product as `Some(details)`.

## Model

| member | source | states |
|---|---|---|
| `ProductRecords.NormaliseDetails` | src/components/ProductItemDetails/index.js:61-71 | the details record is the raw record with `image_url`/`total_reviews` renamed and `style` dropped: encoding it back with the raw `style` gives exactly the raw record |
| `ProductRecords.DetailsRoundTrip` | src/components/ProductItemDetails/index.js:61-71 | normalising an encoded details record gives that record back, so no field is lost or altered |
| `ProductRecords.NormaliseDetailsForgetsOnlyStyle` | src/components/ProductItemDetails/index.js:61-71 | two raw records give the same details if and only if they differ at most in `style` |
| `ProductRecords.NormaliseSimilarProduct` | src/components/ProductItemDetails/index.js:73-84 | a similar product encodes back to its raw record exactly, carries the raw `style`, and without `style` equals the normalised details of the same raw record |
| `ProductRecords.NormaliseSimilar` | src/components/ProductItemDetails/index.js:73-84 | the mapped list has the raw list's length and its element i is the normalisation of raw element i |
| `ProductRecords.SimilarRoundTrip` | src/components/ProductItemDetails/index.js:73-84 | normalising a raw list and encoding it back gives the raw list |
| `ProductRecords.SimilarListRoundTrip` | src/components/ProductItemDetails/index.js:73-84 | encoding a list of similar products and normalising it gives the list back |
| `ProductRecords.NormaliseSimilarAppend` | src/components/ProductItemDetails/index.js:73-84 | the mapping of a concatenation is the concatenation of the mappings (element-wise, no reordering) |
| `ProductItemDetails.IncreasedQuantity` | src/components/ProductItemDetails/index.js:99-100 | an increase always yields a larger quantity; there is no upper bound |
| `ProductItemDetails.DecreasedQuantity` | src/components/ProductItemDetails/index.js:102-105 | a decrease never yields less than 1: it gives exactly one less from a quantity above 1, and 1 from a quantity of 1 or less |
| `ProductItemDetails.QuantityStepsInverse` | src/components/ProductItemDetails/index.js:99-105 | decrease undoes increase from any quantity of at least 1, increase undoes decrease above 1, and decrease is clamped to 1 otherwise |
| `ProductItemDetails.Began` | src/components/ProductItemDetails/index.js:40-42 | starting a fetch sets the phase to in-progress and changes no other field |
| `ProductItemDetails.Completed` | src/components/ProductItemDetails/index.js:59-96 | an ok response gives the success phase, the normalised product and similar list, and keeps `errorMsg`; any other response gives the failure phase and the body's `error_msg`, and keeps both products; the quantity never changes |
| `ProductItemDetails.Render` | src/components/ProductItemDetails/index.js:224-237 | the branch is fixed by the phase (success→details, failure→failure view, in progress→loader, initial→nothing); the loader shows if and only if the phase is in progress; the failure view shows exactly `errorMsg`; the details view shows the stored products and quantity |
| `ProductItemDetails.Step` | src/components/ProductItemDetails/index.js:25-105 | one event (mount, route update, response, increase, decrease): fetch-side events never change the quantity, the quantity buttons change nothing but the quantity, a route update either starts a fetch or changes nothing, and a mount enters the in-progress phase |
| `ProductItemDetails.RenderBranchIsStatus` | src/components/ProductItemDetails/index.js:224-237 | two states render the same branch if and only if they are in the same phase |
| `ProductItemDetails.InitialStateIsConsistent` | src/components/ProductItemDetails/index.js:17-23 | the initial state has quantity 1, the initial phase, renders nothing, and satisfies the invariant |
| `ProductItemDetails.StepKeepsConsistent` | src/components/ProductItemDetails/index.js:29-105 | every event (mount, route update, response, increase, decrease) keeps the quantity at least 1 and keeps details present in the success phase |
| `ProductItemDetails.RunKeepsConsistent` | src/components/ProductItemDetails/index.js:29-105 | any sequence of events keeps that invariant |
| `ProductItemDetails.QuantityNeverBelowOne` | src/components/ProductItemDetails/index.js:102-105 | from the initial state, after any sequence of events, the quantity is at least 1 |
| `ProductItemDetails.FetchEventsKeepQuantity` | src/components/ProductItemDetails/index.js:29-97 | mounts, route updates and responses never change the quantity, so a re-fetch does not reset it |
| `ProductItemDetails.RepeatedIncrease` | src/components/ProductItemDetails/index.js:99-100 | k increases add exactly k to the quantity and change nothing else |
| `ProductItemDetails.RepeatedDecrease` | src/components/ProductItemDetails/index.js:102-105 | k decreases from a quantity q of at least 1 give max(1, q - k) and change nothing else |
| `ProductItemDetails.QuantityExamples` | src/components/ProductItemDetails/index.js:99-105 | two increases from mount give 3; a decrease from 1 gives 1; three decreases from 5 give 2 |
| `ProductItemDetails.RouteUpdateRefetchesOnlyOnNewId` | src/components/ProductItemDetails/index.js:29-37 | a route update starts a fetch if the id changed and changes nothing otherwise (these two unfold `Step`); the quantity is kept either way |
| `ProductItemDetails.RouteChangeShowsLoader` | src/components/ProductItemDetails/index.js:29-42 | a change of id while showing a product shows the loader |
| `ProductItemDetails.FetchCycleRenders` | src/components/ProductItemDetails/index.js:39-97 | after a fetch starts the loader shows; after an ok response the details view shows the normalised product and list with the old quantity; after any other response the failure view shows exactly the body's message |
| `ProductItemDetails.RenderedCardIdsInOrder` | src/components/ProductItemDetails/index.js:73-84 | after an ok response the details view lists one similar product per raw entry, and the ids that key their cards (line 181) are the raw ids in the raw order |
| `ProductItemDetails.FetchScenarios` | src/components/ProductItemDetails/index.js:59-95 | a product with price 999, 4 reviews and rating 4 is shown with those values and one entry per similar product; a rejection with "Product not found" shows exactly that message |
| `ProductItemDetails.Component.constructor` | src/components/ProductItemDetails/index.js:17-23 | a new component holds the initial state |
| `ProductItemDetails.Component.BeginFetch` | src/components/ProductItemDetails/index.js:39-42 | the new state is `Began` of the old one, and the invariant is kept |
| `ProductItemDetails.Component.CompleteFetch` | src/components/ProductItemDetails/index.js:59-96 | the new state is `Completed` of the old one and the response, and the invariant is kept |
| `ProductItemDetails.Component.ComponentDidMount` | src/components/ProductItemDetails/index.js:25-27 | mounting starts a fetch |
| `ProductItemDetails.Component.ComponentDidUpdate` | src/components/ProductItemDetails/index.js:29-37 | a fetch is started, and reported, if and only if the id changed; otherwise the state is unchanged |
| `ProductItemDetails.Component.IncreaseQuantity` | src/components/ProductItemDetails/index.js:99-100 | only the quantity changes, to `IncreasedQuantity` of the old one |
| `ProductItemDetails.Component.DecreaseQuantity` | src/components/ProductItemDetails/index.js:102-105 | only the quantity changes, to `DecreasedQuantity` of the old one; the invariant is kept |
| `ProductItemDetails.Component.RenderViews` | src/components/ProductItemDetails/index.js:224-237 | returns the branch `Render` selects for the current state, and changes nothing |

## Left out

- The request itself: the URL, the `Authorization` header built from the `jwt_token` cookie, `fetch` and `response.json()` (lines 43-57). The response is an input of `CompleteFetch`.
- A network failure or a malformed body. Either one rejects the `await` in the source, and no state change follows. The model has no event for it.
- Missing JSON fields. In the source a missing field becomes `undefined`, and a missing `similar_products` makes `.map` throw. The model's raw records always have every field.
- `price` and `rating` are opaque numbers (`real`) that are copied through. Formatting them for display is not modelled.
- `quantity` is a JavaScript number, which loses precision above 2^53. The model's quantity is an unbounded integer.
- IncreasedQuantity: its own contract says only that the result is larger. That it is exactly one more is stated by `QuantityStepsInverse` and `RepeatedIncrease`.
- JSX markup, CSS classes, `Header`, `Loader`, `ProductCard` and the icons. `Render` returns the branch and the data it shows, not markup.
- The "continue shopping" redirect `history.push('/products')` (lines 195-198), a navigation side effect.
- The `console.log` calls.
- Overlapping fetches. If the id changes while a request is outstanding, the responses may complete in any order. Each `CompleteFetch` is modelled as one atomic step in whatever order the caller gives, but there is no model of the interleaving.
- The quantity buttons are rendered only in the success branch. The model allows the quantity events in any phase, which is a superset of what a user can do; the invariants hold either way.
