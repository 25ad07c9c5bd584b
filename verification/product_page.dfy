/** The product detail view (src/components/ProductPage.tsx): the fetch
    lifecycle that drives its loading, error and product fields, the order of
    its render branches, the image gallery, the star row and the stock rules. */
module ProductPage {
  import opened Common

  /** A full product record as the detail endpoint returns it. */
  datatype ProductDetail = ProductDetail(
    title: string,
    description: string,
    thumbnail: string,
    price: real,
    rating: real,
    brand: string,
    stock: int,
    images: seq<string>,
    category: string)

  datatype DetailState = DetailState(
    product: Option<ProductDetail>,
    loading: bool,
    error: Option<string>,
    selectedImage: Option<string>)

  /** The state before the first fetch starts: nothing loaded, not loading. */
  const InitialDetail := DetailState(None, false, None, None)

  /** A value raised inside the fetch: an `Error` carrying a message, or
      anything else. */
  datatype Thrown = ErrorObject(message: string) | NonErrorValue

  /** How one detail request ends. */
  datatype DetailResponse =
    | Delivered(product: ProductDetail)
      /** A 2xx response whose body is a product. */
    | NotOk
      /** A response with a non-2xx status. */
    | NullBody(typeErrorMessage: string)
      /** A 2xx response whose body is `null`: the product is stored as null and
          reading its thumbnail then raises a `TypeError` with this message. */
    | Threw(thrown: Thrown)
      /** The request or the body parsing raised `thrown`. */

  const FailedToFetch := "Failed to fetch product"
  const UnknownError := "An unknown error occurred"

  /** The message the catch block records for a raised value. */
  function ErrorText(t: Thrown): (m: string)
    ensures t.ErrorObject? ==> m == t.message
    ensures t.NonErrorValue? ==> m == UnknownError
  {
    match t
    case ErrorObject(message) => message
    case NonErrorValue => UnknownError
  }

  /** Start of a fetch: loading, any previous error cleared; the product and
      the selected image from before stay in place. */
  function StartFetch(s: DetailState): (r: DetailState)
    ensures r.loading && r.error == None
    ensures r.product == s.product && r.selectedImage == s.selectedImage
  {
    s.(loading := true, error := None)
  }

  /** The catch and finally blocks: record the message, stop loading. */
  function Catch(s: DetailState, t: Thrown): DetailState {
    s.(error := Some(ErrorText(t)), loading := false)
  }

  /** End of a fetch: loading always stops; a delivered product is stored and
      its thumbnail selected; every failure records a message and leaves the
      previous product and selection untouched, except that a null body
      replaces the product by null before failing. */
  function FinishFetch(s: DetailState, resp: DetailResponse): (r: DetailState)
    ensures !r.loading
    ensures resp.Delivered? ==>
      r.product == Some(resp.product) && r.selectedImage == Some(resp.product.thumbnail) && r.error == s.error
    ensures resp.NotOk? ==>
      r.error == Some(FailedToFetch) && r.product == s.product && r.selectedImage == s.selectedImage
    ensures resp.NullBody? ==>
      r.error == Some(resp.typeErrorMessage) && r.product == None && r.selectedImage == s.selectedImage
    ensures resp.Threw? ==>
      r.error == Some(ErrorText(resp.thrown)) && r.product == s.product && r.selectedImage == s.selectedImage
  {
    match resp
    case Delivered(p) => s.(product := Some(p), selectedImage := Some(p.thumbnail), loading := false)
    case NotOk => Catch(s, ErrorObject(FailedToFetch))
    case NullBody(m) => Catch(s.(product := None), ErrorObject(m))
    case Threw(t) => Catch(s, t)
  }

  // ---------------------------------------------------------------------
  // Pieces of the detail view
  // ---------------------------------------------------------------------

  /** The large image: the selected one when it is a non-empty string,
      otherwise the thumbnail. */
  function MainImage(selected: Option<string>, thumbnail: string): (m: string)
    ensures selected.Some? && selected.value != "" ==> m == selected.value
    ensures selected.None? || selected.value == "" ==> m == thumbnail
  {
    if selected.Some? && selected.value != "" then selected.value else thumbnail
  }

  /** Clicking gallery image `i`: it becomes the selected image. */
  function SelectImage(s: DetailState, i: nat): (r: DetailState)
    requires s.product.Some? && i < |s.product.value.images|
    ensures r.selectedImage == Some(s.product.value.images[i])
    ensures r.product == s.product && r.loading == s.loading && r.error == s.error
  {
    s.(selectedImage := Some(s.product.value.images[i]))
  }

  /** The five stars: star `i` is filled when `i` is below the rating's floor. */
  function Stars(rating: real): seq<bool> {
    seq(5, i => i < rating.Floor)
  }

  function CountFilled(stars: seq<bool>): nat
    decreases |stars|
  {
    if |stars| == 0 then 0
    else CountFilled(stars[..|stars| - 1]) + (if stars[|stars| - 1] then 1 else 0)
  }

  /** `k` clamped into `[0, n]`. */
  function Clamp(k: int, n: nat): (c: nat)
    ensures c <= n
  {
    if k < 0 then 0 else if k > n then n else k
  }

  /** A row whose first `k` entries are filled has `k` filled entries, within the row's length. */
  lemma {:induction false} FilledPrefixCount(stars: seq<bool>, k: int)
    requires forall i :: 0 <= i < |stars| ==> (stars[i] <==> i < k)
    ensures CountFilled(stars) == Clamp(k, |stars|)
    decreases |stars|
  {
    if |stars| > 0 {
      FilledPrefixCount(stars[..|stars| - 1], k);
    }
  }

  /** There are five stars and exactly min(5, max(0, floor(rating))) of them are filled. */
  lemma FilledStarCount(rating: real)
    ensures |Stars(rating)| == 5
    ensures CountFilled(Stars(rating)) == Clamp(rating.Floor, 5)
  {
    FilledPrefixCount(Stars(rating), rating.Floor);
  }

  datatype StockLabel = InStock(count: int) | OutOfStock

  function StockLabelOf(stock: int): (l: StockLabel)
    ensures l.InStock? <==> stock > 0
    ensures l.InStock? ==> l.count == stock
  {
    if stock > 0 then InStock(stock) else OutOfStock
  }

  /** The add-to-cart button is disabled only for a stock of exactly zero. */
  function AddToCartDisabled(stock: int): bool {
    stock == 0
  }

  /** For any stock count the catalogue can hold (zero or more), the button is
      disabled exactly when the label says "Out of stock". */
  lemma LabelAgreesWithButton(stock: int)
    requires stock >= 0
    ensures AddToCartDisabled(stock) <==> StockLabelOf(stock).OutOfStock?
  {
  }

  /** The two rules test different conditions: a negative count reads
      "Out of stock" yet leaves the button enabled. */
  lemma NegativeStockDisagrees(stock: int)
    requires stock < 0
    ensures StockLabelOf(stock).OutOfStock? && !AddToCartDisabled(stock)
  {
  }

  // ---------------------------------------------------------------------
  // Render branches
  // ---------------------------------------------------------------------

  /** What the detail route shows. */
  datatype View =
    | Spinner
    | ErrorMessage(text: string)
    | NoProductFound
    | Detail(mainImage: string, highlighted: seq<bool>, stars: seq<bool>, stock: StockLabel, addToCartDisabled: bool)

  /** An error is shown only when it is a non-empty string (JavaScript truthiness). */
  predicate ErrorShown(s: DetailState) {
    s.error.Some? && s.error.value != ""
  }

  /** Loading first, then the error, then the missing product, then the details. */
  function Render(s: DetailState): (v: View)
    ensures v.Spinner? <==> s.loading
    ensures v.ErrorMessage? <==> !s.loading && ErrorShown(s)
    ensures v.ErrorMessage? ==> s.error == Some(v.text)
    ensures v.NoProductFound? <==> !s.loading && !ErrorShown(s) && s.product.None?
    ensures v.Detail? ==> s.product.Some?
    ensures v.Detail? ==> var p := s.product.value;
      && v.mainImage == MainImage(s.selectedImage, p.thumbnail)
      && |v.highlighted| == |p.images|
      && (forall i :: 0 <= i < |p.images| ==> (v.highlighted[i] <==> s.selectedImage == Some(p.images[i])))
      && v.stars == Stars(p.rating)
      && v.stock == StockLabelOf(p.stock)
      && v.addToCartDisabled == AddToCartDisabled(p.stock)
  {
    if s.loading then Spinner
    else if ErrorShown(s) then ErrorMessage(s.error.value)
    else if s.product.None? then NoProductFound
    else
      var p := s.product.value;
      Detail(MainImage(s.selectedImage, p.thumbnail),
             seq(|p.images|, i requires 0 <= i < |p.images| => s.selectedImage == Some(p.images[i])),
             Stars(p.rating),
             StockLabelOf(p.stock),
             AddToCartDisabled(p.stock))
  }

  /** Before the first fetch starts the view reads "No product found". */
  lemma InitialShowsNoProduct()
    ensures Render(InitialDetail) == NoProductFound
  {
  }

  /** While a fetch is in flight only the spinner shows, whatever came before. */
  lemma FetchingShowsSpinner(s: DetailState)
    ensures Render(StartFetch(s)) == Spinner
  {
  }

  /** A successful fetch shows the delivered product with its thumbnail as the
      large image and highlighted in the gallery wherever it occurs. */
  lemma SuccessfulFetchShowsProduct(s: DetailState, p: ProductDetail)
    ensures var v := Render(FinishFetch(StartFetch(s), Delivered(p)));
      && v.Detail?
      && v.mainImage == p.thumbnail
      && (forall i :: 0 <= i < |p.images| ==> (v.highlighted[i] <==> p.images[i] == p.thumbnail))
      && v.stars == Stars(p.rating)
      && v.stock == StockLabelOf(p.stock)
  {
  }

  /** A non-2xx response shows the fixed failure message. */
  lemma NotOkShowsFailure(s: DetailState)
    ensures Render(FinishFetch(StartFetch(s), NotOk)) == ErrorMessage(FailedToFetch)
  {
  }

  /** A raised value that is not an `Error` shows the generic message. */
  lemma NonErrorShowsUnknown(s: DetailState)
    ensures Render(FinishFetch(StartFetch(s), Threw(NonErrorValue))) == ErrorMessage(UnknownError)
  {
  }

  /** A raised `Error` shows its own message, unless that message is empty:
      then the error branch is skipped and the view falls through to the
      previous product, or to "No product found". */
  lemma RaisedErrorShowsItsMessage(s: DetailState, m: string)
    ensures var v := Render(FinishFetch(StartFetch(s), Threw(ErrorObject(m))));
      && (m != "" ==> v == ErrorMessage(m))
      && (m == "" ==> (v.NoProductFound? <==> s.product.None?) && (v.Detail? <==> s.product.Some?))
  {
  }

  /** A null body never leaves a stale product on screen. */
  lemma NullBodyShowsNoStaleProduct(s: DetailState, m: string)
    ensures var v := Render(FinishFetch(StartFetch(s), NullBody(m)));
      v == (if m != "" then ErrorMessage(m) else NoProductFound)
  {
  }

  /** After clicking gallery image `i` it is the large image (when it is a
      non-empty string) and highlighted. */
  lemma GalleryClickShowsImage(s: DetailState, i: nat)
    requires Render(s).Detail?
    requires i < |s.product.value.images|
    ensures var v := Render(SelectImage(s, i));
      && v.Detail?
      && v.highlighted[i]
      && (s.product.value.images[i] != "" ==> v.mainImage == s.product.value.images[i])
  {
  }
}
