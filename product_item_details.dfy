/**
 * The product details view: its state, the fetch lifecycle, the quantity
 * counter, the re-fetch on a route change and the choice of what to render.
 *
 * Each state change is first stated as a function on a `State` value; the
 * `Component` class holds the same five fields as mutable state and its
 * methods are proved to perform exactly those functions. The network call is
 * not modelled: a fetch is split into `Began` (before the request) and
 * `Completed` (given the response that came back).
 */
module ProductItemDetails {

  import opened Wrappers
  import opened ProductRecords

  /** The lifecycle phase (`INITIAL`, `IN_PROGRESS`, `SUCCESS`, `FAILURE`). */
  datatype Status = Initial | InProgress | Success | Failure

  /** The component's state. `productItemDetails` is `None` while it is still the empty object. */
  datatype State = State(
    productItemDetails: Option<ProductDetails>,
    similarProducts: seq<SimilarProduct>,
    resStatus: Status,
    errorMsg: string,
    quantity: int)

  /** The parsed JSON body. On success the API sends a product and its similar
      products; on failure it sends `error_msg`. */
  datatype RawBody = RawBody(
    product: RawProduct,
    similar_products: seq<RawProduct>,
    error_msg: string)

  /** What the network call yields: whether the HTTP status was ok, and the body. */
  datatype Response = Response(ok: bool, body: RawBody)

  /** The state a freshly mounted component starts in. */
  const InitialState := State(None, [], Initial, "", 1)

  /** What the source keeps true of every reachable state: the quantity is at
      least 1, and a successful phase has product details to show. */
  ghost predicate Consistent(s: State)
  {
    s.quantity >= 1 && (s.resStatus == Success ==> s.productItemDetails.Some?)
  }

  // ---------------------------------------------------------------------------
  // Quantity counter.
  // ---------------------------------------------------------------------------

  /** The quantity after one increase: always larger, with no upper bound. */
  function IncreasedQuantity(q: int): (r: int)
    ensures r > q
  {
    q + 1
  }

  /** The quantity after one decrease: one less, but never below 1. */
  function DecreasedQuantity(q: int): (r: int)
    ensures r >= 1
    ensures q > 1 ==> r == q - 1
    ensures q <= 1 ==> r == 1
  {
    if q > 1 then q - 1 else 1
  }

  /** Increase and decrease undo each other wherever the clamp does not apply. */
  lemma QuantityStepsInverse(q: int)
    ensures q >= 1 ==> DecreasedQuantity(IncreasedQuantity(q)) == q
    ensures q > 1 ==> IncreasedQuantity(DecreasedQuantity(q)) == q
    ensures q <= 1 ==> DecreasedQuantity(q) == 1
  {
  }

  // ---------------------------------------------------------------------------
  // Fetch lifecycle.
  // ---------------------------------------------------------------------------

  /** Starting a fetch: the phase becomes in-progress and nothing else changes. */
  function Began(s: State): (t: State)
    ensures t.resStatus == InProgress
    ensures t.(resStatus := s.resStatus) == s
  {
    s.(resStatus := InProgress)
  }

  /**
   * A fetch completing. An ok response replaces the product and its similar
   * products with the normalised body and leaves the error message alone; any
   * other response stores the body's error message and leaves the products
   * alone. The quantity is never touched.
   */
  function Completed(s: State, response: Response): (t: State)
    ensures t.resStatus == (if response.ok then Success else Failure)
    ensures t.quantity == s.quantity
    ensures response.ok ==>
      && t.productItemDetails == Some(NormaliseDetails(response.body.product))
      && t.similarProducts == NormaliseSimilar(response.body.similar_products)
      && t.errorMsg == s.errorMsg
    ensures !response.ok ==>
      && t.errorMsg == response.body.error_msg
      && t.productItemDetails == s.productItemDetails
      && t.similarProducts == s.similarProducts
  {
    if response.ok then
      s.(productItemDetails := Some(NormaliseDetails(response.body.product)),
         similarProducts := NormaliseSimilar(response.body.similar_products),
         resStatus := Success)
    else
      s.(resStatus := Failure, errorMsg := response.body.error_msg)
  }

  // ---------------------------------------------------------------------------
  // View selection.
  // ---------------------------------------------------------------------------

  /** The branch `renderViews` returns, with the state it shows. */
  datatype View =
    | DetailsView(details: Option<ProductDetails>, similar: seq<SimilarProduct>, quantity: int)
    | FailureView(message: string)
    | LoadingView
    | NoView

  /** The phase a view belongs to: the inverse of the selection below. */
  function ViewStatus(v: View): Status
  {
    match v
    case DetailsView(_, _, _) => Success
    case FailureView(_) => Failure
    case LoadingView => InProgress
    case NoView => Initial
  }

  /**
   * The branch is chosen by the phase alone, one branch per phase; the loader is
   * shown exactly while a fetch is in progress, the failure view shows the stored
   * message and nothing else, and the details view shows the stored products and
   * quantity.
   */
  function Render(s: State): (v: View)
    ensures ViewStatus(v) == s.resStatus
    ensures v.LoadingView? <==> s.resStatus == InProgress
    ensures v.FailureView? ==> v.message == s.errorMsg
    ensures v.DetailsView? ==>
      v.details == s.productItemDetails && v.similar == s.similarProducts && v.quantity == s.quantity
  {
    match s.resStatus
    case Success => DetailsView(s.productItemDetails, s.similarProducts, s.quantity)
    case Failure => FailureView(s.errorMsg)
    case InProgress => LoadingView
    case Initial => NoView
  }

  /** Two states in the same phase render the same branch, and different phases different ones. */
  lemma RenderBranchIsStatus(s: State, t: State)
    ensures ViewStatus(Render(s)) == ViewStatus(Render(t)) <==> s.resStatus == t.resStatus
  {
  }

  // ---------------------------------------------------------------------------
  // Sequences of events.
  // ---------------------------------------------------------------------------

  /** Everything that changes the state: mounting, a route update, a fetch
      coming back, and the two quantity buttons. */
  datatype Event =
    | Mount
    | RouteUpdate(prevId: ProductId, id: ProductId)
    | Complete(response: Response)
    | Increase
    | Decrease

  /**
   * One event. Mounts, route updates and responses never touch the quantity;
   * the quantity buttons touch nothing else; a route update either starts a
   * fetch or leaves the state as it was.
   */
  function Step(s: State, e: Event): (t: State)
    ensures !e.Increase? && !e.Decrease? ==> t.quantity == s.quantity
    ensures e.Increase? || e.Decrease? ==> t == s.(quantity := t.quantity)
    ensures e.RouteUpdate? ==> t == s || t == Began(s)
    ensures e.Mount? ==> t.resStatus == InProgress
  {
    match e
    case Mount => Began(s)
    case RouteUpdate(prevId, id) => if prevId != id then Began(s) else s
    case Complete(response) => Completed(s, response)
    case Increase => s.(quantity := IncreasedQuantity(s.quantity))
    case Decrease => s.(quantity := DecreasedQuantity(s.quantity))
  }

  /** The state after the events, in order. */
  function Run(s: State, events: seq<Event>): State
    decreases |events|
  {
    if events == [] then s else Run(Step(s, events[0]), events[1..])
  }

  function Repeat(e: Event, k: nat): (events: seq<Event>)
    ensures |events| == k
    ensures forall i :: 0 <= i < k ==> events[i] == e
  {
    if k == 0 then [] else [e] + Repeat(e, k - 1)
  }

  function Max(a: int, b: int): int
  {
    if a >= b then a else b
  }

  // ---------------------------------------------------------------------------
  // Properties.
  // ---------------------------------------------------------------------------

  lemma InitialStateIsConsistent()
    ensures Consistent(InitialState)
    ensures InitialState.quantity == 1 && InitialState.resStatus == Initial
    ensures Render(InitialState) == NoView
  {
  }

  lemma StepKeepsConsistent(s: State, e: Event)
    requires Consistent(s)
    ensures Consistent(Step(s, e))
  {
  }

  /** No sequence of events breaks the invariant; in particular the quantity stays at least 1. */
  lemma {:induction false} RunKeepsConsistent(s: State, events: seq<Event>)
    requires Consistent(s)
    ensures Consistent(Run(s, events))
    decreases |events|
  {
    if events != [] {
      StepKeepsConsistent(s, events[0]);
      RunKeepsConsistent(Step(s, events[0]), events[1..]);
    }
  }

  /** From mount on, whatever happens, the quantity is never below 1. */
  lemma QuantityNeverBelowOne(events: seq<Event>)
    ensures Run(InitialState, events).quantity >= 1
  {
    RunKeepsConsistent(InitialState, events);
  }

  /** Fetches and route changes never change the quantity: a re-fetch does not reset it. */
  lemma {:induction false} FetchEventsKeepQuantity(s: State, events: seq<Event>)
    requires forall i :: 0 <= i < |events| ==> !events[i].Increase? && !events[i].Decrease?
    ensures Run(s, events).quantity == s.quantity
    decreases |events|
  {
    if events != [] {
      FetchEventsKeepQuantity(Step(s, events[0]), events[1..]);
    }
  }

  /** k increases add exactly k, with no cap, and change nothing else. */
  lemma {:induction false} RepeatedIncrease(s: State, k: nat)
    ensures Run(s, Repeat(Increase, k)) == s.(quantity := s.quantity + k)
    decreases k
  {
    if k > 0 {
      RepeatedIncrease(s.(quantity := s.quantity + 1), k - 1);
    }
  }

  /** k decreases from a quantity of at least 1 give that quantity minus k, clamped at 1. */
  lemma {:induction false} RepeatedDecrease(s: State, k: nat)
    requires s.quantity >= 1
    ensures Run(s, Repeat(Decrease, k)) == s.(quantity := Max(1, s.quantity - k))
    decreases k
  {
    if k > 0 {
      RepeatedDecrease(s.(quantity := DecreasedQuantity(s.quantity)), k - 1);
    }
  }

  /** Increase twice from mount gives 3; decrease from 1 gives 1; decrease three times from 5 gives 2. */
  lemma QuantityExamples(s: State)
    ensures Run(InitialState, [Increase, Increase]).quantity == 3
    ensures Run(InitialState, [Decrease]).quantity == 1
    ensures Run(s.(quantity := 5), [Decrease, Decrease, Decrease]).quantity == 2
  {
  }

  /** A route update starts a fetch when the id changed and otherwise changes
      nothing; the quantity is kept either way. The first two clauses unfold
      `Step`; that the component refetches if and only if the id changed is the
      contract of `Component.ComponentDidUpdate`. */
  lemma RouteUpdateRefetchesOnlyOnNewId(s: State, prevId: ProductId, id: ProductId)
    ensures prevId != id ==> Step(s, RouteUpdate(prevId, id)) == Began(s)
    ensures prevId == id ==> Step(s, RouteUpdate(prevId, id)) == s
    ensures Step(s, RouteUpdate(prevId, id)).quantity == s.quantity
  {
  }

  /** A successful product page showing a new id, after a route change, shows the loader. */
  lemma RouteChangeShowsLoader(s: State, prevId: ProductId, id: ProductId)
    requires s.resStatus == Success && prevId != id
    ensures Render(Step(s, RouteUpdate(prevId, id))) == LoadingView
  {
  }

  /** A full fetch cycle: the loader while in flight, then the details of an ok
      body (one card per similar product, in order) or exactly its error message. */
  lemma FetchCycleRenders(s: State, response: Response)
    ensures Render(Run(s, [Mount])) == LoadingView
    ensures response.ok ==>
      Render(Run(s, [Mount, Complete(response)])) ==
        DetailsView(Some(NormaliseDetails(response.body.product)),
                    NormaliseSimilar(response.body.similar_products), s.quantity)
    ensures !response.ok ==>
      Render(Run(s, [Mount, Complete(response)])) == FailureView(response.body.error_msg)
  {
    var events := [Mount, Complete(response)];
    assert events[1..] == [Complete(response)];
    assert Run(s, events) == Run(Began(s), [Complete(response)]);
    assert [Complete(response)][1..] == [];
  }

  /** After an ok response, the similar products shown, whose ids key their cards,
      are one per raw entry and carry the raw ids in the raw order. */
  lemma RenderedCardIdsInOrder(s: State, response: Response)
    requires response.ok
    ensures
      var shown := Render(Run(s, [Mount, Complete(response)]));
      && shown.DetailsView?
      && |shown.similar| == |response.body.similar_products|
      && forall i :: 0 <= i < |shown.similar| ==>
           shown.similar[i].id == response.body.similar_products[i].id
  {
    FetchCycleRenders(s, response);
  }

  /** A product with price 999, 4 reviews and rating 4 renders those numbers; a
      rejection with "Product not found" renders exactly that message. The route
      ids of these scenarios ("1" and "999") only choose the request URL, which is
      not modelled, so they do not appear here. */
  lemma FetchScenarios(s: State, raw: RawProduct, similar: seq<RawProduct>)
    requires raw.price == 999.0 && raw.total_reviews == 4 && raw.rating == 4.0
    ensures
      var shown := Render(Run(s, [Mount, Complete(Response(true, RawBody(raw, similar, "")))]));
      && shown.DetailsView? && shown.details.Some?
      && shown.details.value.price == 999.0
      && shown.details.value.totalReviews == 4
      && shown.details.value.rating == 4.0
      && |shown.similar| == |similar|
    ensures
      Render(Run(s, [Mount, Complete(Response(false, RawBody(raw, similar, "Product not found")))]))
        == FailureView("Product not found")
  {
    FetchCycleRenders(s, Response(true, RawBody(raw, similar, "")));
    FetchCycleRenders(s, Response(false, RawBody(raw, similar, "Product not found")));
  }

  // ---------------------------------------------------------------------------
  // The component.
  // ---------------------------------------------------------------------------

  class Component {
    var productItemDetails: Option<ProductDetails>
    var similarProducts: seq<SimilarProduct>
    var resStatus: Status
    var errorMsg: string
    var quantity: int

    /** The current state as a value. */
    function Snapshot(): State
      reads this
    {
      State(productItemDetails, similarProducts, resStatus, errorMsg, quantity)
    }

    ghost predicate Valid()
      reads this
    {
      Consistent(Snapshot())
    }

    constructor ()
      ensures Snapshot() == InitialState && Valid()
    {
      productItemDetails := None;
      similarProducts := [];
      resStatus := Initial;
      errorMsg := "";
      quantity := 1;
    }

    /** The first half of `getProducts`: entering the in-progress phase before the request. */
    method BeginFetch()
      modifies this
      ensures Snapshot() == Began(old(Snapshot()))
      ensures old(Valid()) ==> Valid()
    {
      resStatus := InProgress;
    }

    /** The second half of `getProducts`: applying the response that came back. */
    method CompleteFetch(response: Response)
      modifies this
      ensures Snapshot() == Completed(old(Snapshot()), response)
      ensures old(Valid()) ==> Valid()
    {
      if response.ok {
        var details := NormaliseDetails(response.body.product);
        var similar := NormaliseSimilar(response.body.similar_products);
        productItemDetails := Some(details);
        similarProducts := similar;
        resStatus := Success;
      } else {
        resStatus := Failure;
        errorMsg := response.body.error_msg;
      }
    }

    method ComponentDidMount()
      modifies this
      ensures Snapshot() == Began(old(Snapshot()))
      ensures old(Valid()) ==> Valid()
    {
      BeginFetch();
    }

    /** Starts a new fetch, and says so, exactly when the route's product id changed. */
    method ComponentDidUpdate(prevId: ProductId, id: ProductId) returns (refetched: bool)
      modifies this
      ensures refetched <==> prevId != id
      ensures Snapshot() == if refetched then Began(old(Snapshot())) else old(Snapshot())
      ensures old(Valid()) ==> Valid()
    {
      refetched := false;
      if prevId != id {
        BeginFetch();
        refetched := true;
      }
    }

    method IncreaseQuantity()
      modifies this
      ensures Snapshot() == old(Snapshot()).(quantity := IncreasedQuantity(old(quantity)))
      ensures old(Valid()) ==> Valid()
    {
      quantity := IncreasedQuantity(quantity);
    }

    method DecreaseQuantity()
      modifies this
      ensures Snapshot() == old(Snapshot()).(quantity := DecreasedQuantity(old(quantity)))
      ensures old(Valid()) ==> Valid()
    {
      quantity := DecreasedQuantity(quantity);
    }

    /** The branch to render for the current state. */
    method RenderViews() returns (v: View)
      ensures v == Render(Snapshot())
    {
      v := Render(Snapshot());
    }
  }
}
