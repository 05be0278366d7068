/**
 * The product records the details view works with, and the normalisation that
 * turns the product API's snake_case body into the camelCase records kept in
 * the component's state.
 *
 * The API's field names are kept verbatim (`image_url`, `total_reviews`) on the
 * raw records so that the rename is visible. Prices and ratings are opaque
 * numbers: the view copies them and never computes with them.
 */
module ProductRecords {

  type ProductId = string

  /** One product as the API sends it (the main product or one similar product). */
  datatype RawProduct = RawProduct(
    id: ProductId,
    image_url: string,
    title: string,
    style: string,
    price: real,
    description: string,
    brand: string,
    total_reviews: int,
    rating: real,
    availability: string)

  /** The product shown on the page. It has no `style`. */
  datatype ProductDetails = ProductDetails(
    id: ProductId,
    imageUrl: string,
    title: string,
    price: real,
    description: string,
    brand: string,
    totalReviews: int,
    rating: real,
    availability: string)

  /** One entry of the similar-products list: the details shape plus `style`. */
  datatype SimilarProduct = SimilarProduct(
    id: ProductId,
    imageUrl: string,
    title: string,
    style: string,
    price: real,
    description: string,
    brand: string,
    totalReviews: int,
    rating: real,
    availability: string)

  // ---------------------------------------------------------------------------
  // Encoders back to the API's shape: the partners of the normalisations below.
  // ---------------------------------------------------------------------------

  /** The raw record a details record came from, given the `style` it dropped. */
  function DetailsToRaw(d: ProductDetails, style: string): RawProduct
  {
    RawProduct(d.id, d.imageUrl, d.title, style, d.price, d.description,
               d.brand, d.totalReviews, d.rating, d.availability)
  }

  /** The raw record a similar product came from. */
  function SimilarToRaw(p: SimilarProduct): RawProduct
  {
    RawProduct(p.id, p.imageUrl, p.title, p.style, p.price, p.description,
               p.brand, p.totalReviews, p.rating, p.availability)
  }

  /** A similar product seen as a details record, its `style` dropped. */
  function WithoutStyle(p: SimilarProduct): ProductDetails
  {
    ProductDetails(p.id, p.imageUrl, p.title, p.price, p.description,
                   p.brand, p.totalReviews, p.rating, p.availability)
  }

  function SimilarListToRaw(ps: seq<SimilarProduct>): (raws: seq<RawProduct>)
    ensures |raws| == |ps|
    ensures forall i :: 0 <= i < |ps| ==> raws[i] == SimilarToRaw(ps[i])
  {
    if ps == [] then [] else [SimilarToRaw(ps[0])] + SimilarListToRaw(ps[1..])
  }

  // ---------------------------------------------------------------------------
  // Normalisation (the object literal and the `.map` of the success branch).
  // ---------------------------------------------------------------------------

  /**
   * The main product: a field-for-field copy with `image_url` renamed to
   * `imageUrl` and `total_reviews` to `totalReviews`; `style` is not kept.
   * Nothing but `style` is lost: the raw record is recovered from the result.
   */
  function NormaliseDetails(raw: RawProduct): (d: ProductDetails)
    ensures DetailsToRaw(d, raw.style) == raw
  {
    ProductDetails(raw.id, raw.image_url, raw.title, raw.price, raw.description,
                   raw.brand, raw.total_reviews, raw.rating, raw.availability)
  }

  /**
   * One similar product: the same renaming, and `style` carried over, so the
   * result is the normalised details record plus the raw `style`.
   */
  function NormaliseSimilarProduct(raw: RawProduct): (p: SimilarProduct)
    ensures SimilarToRaw(p) == raw
    ensures WithoutStyle(p) == NormaliseDetails(raw) && p.style == raw.style
  {
    SimilarProduct(raw.id, raw.image_url, raw.title, raw.style, raw.price,
                   raw.description, raw.brand, raw.total_reviews, raw.rating,
                   raw.availability)
  }

  /**
   * The similar-products list, mapped element by element: the result has one
   * entry per raw entry, in the same order.
   */
  function NormaliseSimilar(raws: seq<RawProduct>): (ps: seq<SimilarProduct>)
    ensures |ps| == |raws|
    ensures forall i :: 0 <= i < |raws| ==> ps[i] == NormaliseSimilarProduct(raws[i])
  {
    if raws == [] then [] else [NormaliseSimilarProduct(raws[0])] + NormaliseSimilar(raws[1..])
  }

  // ---------------------------------------------------------------------------
  // Properties of the normalisation.
  // ---------------------------------------------------------------------------

  /** Normalising a details record that was encoded gives that record back. */
  lemma DetailsRoundTrip(d: ProductDetails, style: string)
    ensures NormaliseDetails(DetailsToRaw(d, style)) == d
  {
  }

  /** Two raw records normalise to the same details exactly when they differ at most in `style`. */
  lemma NormaliseDetailsForgetsOnlyStyle(a: RawProduct, b: RawProduct)
    ensures NormaliseDetails(a) == NormaliseDetails(b) <==> a.(style := b.style) == b
  {
  }

  /** Normalising a list and encoding it back gives the raw list. */
  lemma SimilarRoundTrip(raws: seq<RawProduct>)
    ensures SimilarListToRaw(NormaliseSimilar(raws)) == raws
  {
  }

  /** Encoding a list of similar products and normalising it gives the list back. */
  lemma SimilarListRoundTrip(ps: seq<SimilarProduct>)
    ensures NormaliseSimilar(SimilarListToRaw(ps)) == ps
  {
  }

  /** The mapping distributes over concatenation: it is element-wise, with no reordering. */
  lemma NormaliseSimilarAppend(a: seq<RawProduct>, b: seq<RawProduct>)
    ensures NormaliseSimilar(a + b) == NormaliseSimilar(a) + NormaliseSimilar(b)
  {
  }
}
