/** The product grid (src/components/MainContent.tsx): which remote query the
    filters select, the client-side filter over the fetched page, paging
    bounds, the fetch lifecycle and the grid's render branch. */
module MainContent {
  import opened Common
  import opened FilterContext

  /** A product summary as the listing endpoints return it. */
  datatype Product = Product(
    id: int,
    title: string,
    category: string,
    thumbnail: string,
    price: real,
    rating: real,
    description: string)

  const ItemsPerPage: int := 12
  /** Assumed size of the remote catalogue; the real total is never read. */
  const TotalProducts: int := 100

  /** `Math.ceil` on a real number. */
  function Ceil(x: real): (r: int)
    ensures r as real - 1.0 < x <= r as real
  {
    -((-x).Floor)
  }

  const TotalPages: int := Ceil(TotalProducts as real / ItemsPerPage as real)

  /** The page count is fixed at nine, whatever the remote catalogue holds. */
  lemma TotalPagesIsNine()
    ensures TotalPages == 9
  {
  }

  // ---------------------------------------------------------------------
  // Query selection
  // ---------------------------------------------------------------------

  /** The shape of the one request issued per fetch: text search, one
      category, or a page of the full listing. */
  datatype Query =
    | Search(text: string)
    | Category(slug: string)
    | Listing(limit: int, skip: int)

  /** First match wins: search text, then keyword, then category, then the
      paged listing. */
  function ChooseQuery(fs: FilterState, currentPage: int): (q: Query)
    ensures q.Search? <==> fs.searchQuery != "" || fs.keyword != ""
    ensures q.Search? ==> q.text == (if fs.searchQuery != "" then fs.searchQuery else fs.keyword)
    ensures q.Category? <==> fs.searchQuery == "" && fs.keyword == "" && fs.selectedCategory != ""
    ensures q.Category? ==> q.slug == fs.selectedCategory
    ensures q.Listing? ==> q.limit == ItemsPerPage && q.skip == (currentPage - 1) * ItemsPerPage
  {
    var listing := Listing(ItemsPerPage, (currentPage - 1) * ItemsPerPage);
    if fs.searchQuery != "" then Search(fs.searchQuery)
    else if fs.keyword != "" then Search(fs.keyword)
    else if fs.selectedCategory != "" then Category(fs.selectedCategory)
    else listing
  }

  /** A listing query never skips a negative number of items on a real page,
      always skips whole pages, and the page it asks for can be read back. */
  lemma ListingQueryNamesItsPage(fs: FilterState, currentPage: int)
    requires currentPage >= 1
    requires ChooseQuery(fs, currentPage).Listing?
    ensures var q := ChooseQuery(fs, currentPage);
      && q.skip >= 0
      && q.skip % q.limit == 0
      && q.skip / q.limit + 1 == currentPage
  {
  }

  /** The page number matters only when no text, keyword or category is set. */
  lemma PageAffectsOnlyListing(fs: FilterState, p1: int, p2: int)
    ensures ChooseQuery(fs, p1) != ChooseQuery(fs, p2) ==>
      ChooseQuery(fs, p1).Listing? && ChooseQuery(fs, p2).Listing? && p1 != p2
  {
  }

  /** Some input on the effect's dependency list differs: the page or one of
      the three text fields. The price bounds are not on the list. */
  predicate EffectKeysChanged(before: FilterState, beforePage: int, after: FilterState, afterPage: int) {
    || beforePage != afterPage
    || before.searchQuery != after.searchQuery
    || before.keyword != after.keyword
    || before.selectedCategory != after.selectedCategory
  }

  /** The dependency list covers every input of the query: when no key
      changed, re-fetching would issue the very same request. */
  lemma QueryDeterminedByEffectKeys(before: FilterState, beforePage: int, after: FilterState, afterPage: int)
    ensures !EffectKeysChanged(before, beforePage, after, afterPage) ==>
      ChooseQuery(before, beforePage) == ChooseQuery(after, afterPage)
  {
  }

  // ---------------------------------------------------------------------
  // Client-side filter
  // ---------------------------------------------------------------------

  /** The conjunction of every active client-side predicate. */
  predicate Matches(fs: FilterState, p: Product) {
    && (fs.selectedCategory != "" ==> p.category == fs.selectedCategory)
    && (fs.minPrice.Bound? ==> p.price >= fs.minPrice.value)
    && (fs.maxPrice.Bound? ==> p.price <= fs.maxPrice.value)
  }

  predicate AnyFilterActive(fs: FilterState) {
    fs.selectedCategory != "" || fs.minPrice.Bound? || fs.maxPrice.Bound?
  }

  /** The three filter passes the grid applies, each only when its field is set. */
  datatype Pass = CategoryPass | MinPricePass | MaxPricePass

  /** Whether one pass lets a product through (an inactive pass lets all through). */
  predicate Admits(pass: Pass, fs: FilterState, p: Product) {
    match pass
    case CategoryPass => fs.selectedCategory != "" ==> p.category == fs.selectedCategory
    case MinPricePass => fs.minPrice.Bound? ==> p.price >= fs.minPrice.value
    case MaxPricePass => fs.maxPrice.Bound? ==> p.price <= fs.maxPrice.value
  }

  function ApplyPass(pass: Pass, fs: FilterState, xs: seq<Product>): seq<Product> {
    match pass
    case CategoryPass =>
      if fs.selectedCategory != "" then Keep((p: Product) => p.category == fs.selectedCategory, xs) else xs
    case MinPricePass =>
      if fs.minPrice.Bound? then Keep((p: Product) => p.price >= fs.minPrice.value, xs) else xs
    case MaxPricePass =>
      if fs.maxPrice.Bound? then Keep((p: Product) => p.price <= fs.maxPrice.value, xs) else xs
  }

  function ApplyPasses(order: seq<Pass>, fs: FilterState, xs: seq<Product>): seq<Product>
    decreases |order|
  {
    if |order| == 0 then xs else ApplyPasses(order[1..], fs, ApplyPass(order[0], fs, xs))
  }

  /** The order in which the grid runs the passes. */
  const SourceOrder: seq<Pass> := [CategoryPass, MinPricePass, MaxPricePass]

  lemma SourceOrderRunsEveryPass()
    ensures forall pass: Pass :: pass in SourceOrder
  {
    forall pass: Pass
      ensures pass in SourceOrder
    {
      match pass
      case CategoryPass => assert SourceOrder[0] == pass;
      case MinPricePass => assert SourceOrder[1] == pass;
      case MaxPricePass => assert SourceOrder[2] == pass;
    }
  }

  /** The products the grid shows: exactly the fetched products that meet
      every active predicate, in their fetched order. */
  function FilterProducts(xs: seq<Product>, fs: FilterState): (r: seq<Product>)
    ensures r == Keep(p => Matches(fs, p), xs)
    ensures SubsequenceOf(r, xs)
  {
    SourceOrderRunsEveryPass();
    AnyOrderGivesSameResult(SourceOrder, fs, xs);
    KeepIsSubsequence(p => Matches(fs, p), xs);
    ApplyPasses(SourceOrder, fs, xs)
  }

  /** Every product passes all passes in `order`. */
  predicate AdmitsAll(order: seq<Pass>, fs: FilterState, p: Product)
    decreases |order|
  {
    |order| == 0 || (Admits(order[0], fs, p) && AdmitsAll(order[1..], fs, p))
  }

  lemma {:induction false} AdmitsAllMeansEach(order: seq<Pass>, fs: FilterState, p: Product)
    ensures AdmitsAll(order, fs, p) <==> forall pass :: pass in order ==> Admits(pass, fs, p)
    decreases |order|
  {
    if |order| > 0 {
      AdmitsAllMeansEach(order[1..], fs, p);
      assert forall pass :: pass in order <==> pass == order[0] || pass in order[1..];
    }
  }

  /** One pass is one filter by its own predicate. */
  lemma PassIsKeep(pass: Pass, fs: FilterState, xs: seq<Product>)
    ensures ApplyPass(pass, fs, xs) == Keep(p => Admits(pass, fs, p), xs)
  {
    match pass
    case CategoryPass =>
      if fs.selectedCategory != "" {
        KeepExtensional((p: Product) => p.category == fs.selectedCategory, p => Admits(pass, fs, p), xs);
      } else {
        KeepAll(p => Admits(pass, fs, p), xs);
      }
    case MinPricePass =>
      if fs.minPrice.Bound? {
        KeepExtensional((p: Product) => p.price >= fs.minPrice.value, p => Admits(pass, fs, p), xs);
      } else {
        KeepAll(p => Admits(pass, fs, p), xs);
      }
    case MaxPricePass =>
      if fs.maxPrice.Bound? {
        KeepExtensional((p: Product) => p.price <= fs.maxPrice.value, p => Admits(pass, fs, p), xs);
      } else {
        KeepAll(p => Admits(pass, fs, p), xs);
      }
  }

  /** A run of passes is one filter by the conjunction of their predicates. */
  lemma {:induction false} PassesAreKeep(order: seq<Pass>, fs: FilterState, xs: seq<Product>)
    ensures ApplyPasses(order, fs, xs) == Keep(p => AdmitsAll(order, fs, p), xs)
    decreases |order|
  {
    if |order| == 0 {
      KeepAll(p => AdmitsAll(order, fs, p), xs);
    } else {
      var once := ApplyPass(order[0], fs, xs);
      PassIsKeep(order[0], fs, xs);
      PassesAreKeep(order[1..], fs, once);
      KeepFuse(p => Admits(order[0], fs, p), p => AdmitsAll(order[1..], fs, p),
               p => AdmitsAll(order, fs, p), xs);
    }
  }

  /** Running the passes in any order, repeated or not, gives the grid's
      result, provided every pass runs at least once. */
  lemma AnyOrderGivesSameResult(order: seq<Pass>, fs: FilterState, xs: seq<Product>)
    requires forall pass: Pass :: pass in order
    ensures ApplyPasses(order, fs, xs) == Keep(p => Matches(fs, p), xs)
  {
    PassesAreKeep(order, fs, xs);
    forall p | true
      ensures AdmitsAll(order, fs, p) == Matches(fs, p)
    {
      AdmitsAllMeansEach(order, fs, p);
      assert CategoryPass in order && MinPricePass in order && MaxPricePass in order;
    }
    KeepExtensional(p => AdmitsAll(order, fs, p), p => Matches(fs, p), xs);
  }

  /** A product is shown exactly when it was fetched and meets every active predicate. */
  lemma ShownIffMatches(xs: seq<Product>, fs: FilterState, p: Product)
    ensures p in FilterProducts(xs, fs) <==> p in xs && Matches(fs, p)
  {
    KeepMembership(p => Matches(fs, p), xs, p);
  }

  /** With no category and no price bound set, every fetched product is shown. */
  lemma NoActiveFilterShowsAll(xs: seq<Product>, fs: FilterState)
    requires !AnyFilterActive(fs)
    ensures FilterProducts(xs, fs) == xs
  {
    KeepAll(p => Matches(fs, p), xs);
  }

  /** Filtering an already filtered list changes nothing. */
  lemma FilterIdempotent(xs: seq<Product>, fs: FilterState)
    ensures FilterProducts(FilterProducts(xs, fs), fs) == FilterProducts(xs, fs)
  {
    KeepIdempotent(p => Matches(fs, p), xs);
  }

  // ---------------------------------------------------------------------
  // Grid state: page, loading flag, fetched products
  // ---------------------------------------------------------------------

  datatype ListingState = ListingState(currentPage: int, loading: bool, products: seq<Product>)

  const InitialListing := ListingState(1, false, [])

  predicate ValidPage(page: int) {
    1 <= page <= TotalPages
  }

  /** A page request is honoured when it names an existing page and is
      otherwise ignored. */
  function HandlePageChange(s: ListingState, page: int): (r: ListingState)
    ensures ValidPage(page) ==> r.currentPage == page
    ensures !ValidPage(page) ==> r == s
    ensures r.loading == s.loading && r.products == s.products
    ensures ValidPage(s.currentPage) ==> ValidPage(r.currentPage)
  {
    if page > 0 && page <= TotalPages then s.(currentPage := page) else s
  }

  function ApplyPageRequests(s: ListingState, pages: seq<int>): ListingState
    decreases |pages|
  {
    if |pages| == 0 then s else ApplyPageRequests(HandlePageChange(s, pages[0]), pages[1..])
  }

  /** Starting from page 1, no sequence of page requests leaves the range of pages. */
  lemma {:induction false} PageStaysInRange(s: ListingState, pages: seq<int>)
    requires ValidPage(s.currentPage)
    ensures ValidPage(ApplyPageRequests(s, pages).currentPage)
    decreases |pages|
  {
    if |pages| > 0 {
      PageStaysInRange(HandlePageChange(s, pages[0]), pages[1..]);
    }
  }

  lemma InitialPageInRange(pages: seq<int>)
    ensures ValidPage(ApplyPageRequests(InitialListing, pages).currentPage)
  {
    PageStaysInRange(InitialListing, pages);
  }

  predicate PreviousDisabled(s: ListingState) {
    s.currentPage == 1
  }

  predicate NextDisabled(s: ListingState) {
    s.currentPage == TotalPages
  }

  /** On any reachable page, each button is disabled exactly when the request
      it would send is one the page handler ignores. */
  lemma DisabledExactlyWhenIgnored(s: ListingState)
    requires ValidPage(s.currentPage)
    ensures PreviousDisabled(s) <==> HandlePageChange(s, s.currentPage - 1) == s
    ensures NextDisabled(s) <==> HandlePageChange(s, s.currentPage + 1) == s
  {
  }

  /** Clicking "Previous": nothing when disabled, otherwise a request for the page before. */
  function ClickPrevious(s: ListingState): (r: ListingState)
    ensures PreviousDisabled(s) ==> r == s
    ensures ValidPage(s.currentPage) && !PreviousDisabled(s) ==> r.currentPage == s.currentPage - 1
    ensures ValidPage(s.currentPage) ==> ValidPage(r.currentPage)
  {
    if PreviousDisabled(s) then s else HandlePageChange(s, s.currentPage - 1)
  }

  /** Clicking "Next": nothing when disabled, otherwise a request for the page after. */
  function ClickNext(s: ListingState): (r: ListingState)
    ensures NextDisabled(s) ==> r == s
    ensures ValidPage(s.currentPage) && !NextDisabled(s) ==> r.currentPage == s.currentPage + 1
    ensures ValidPage(s.currentPage) ==> ValidPage(r.currentPage)
  {
    if NextDisabled(s) then s else HandlePageChange(s, s.currentPage + 1)
  }

  /** Start of a fetch: the loading flag goes up and the request for the
      current filters and page is issued. */
  function BeginFetch(s: ListingState, fs: FilterState): (r: (ListingState, Query))
    ensures r.0.loading
    ensures r.0.currentPage == s.currentPage && r.0.products == s.products
    ensures r.1 == ChooseQuery(fs, s.currentPage)
  {
    (s.(loading := true), ChooseQuery(fs, s.currentPage))
  }

  /** End of a fetch: a delivered list replaces the products, a failure keeps
      the previous ones; either way the loading flag comes down. */
  function EndFetch(s: ListingState, outcome: Fetched<seq<Product>>): (r: ListingState)
    ensures !r.loading && r.currentPage == s.currentPage
    ensures outcome.Loaded? ==> r.products == outcome.data
    ensures outcome.FetchFailed? ==> r.products == s.products
  {
    match outcome
    case Loaded(products) => s.(loading := false, products := products)
    case FetchFailed => s.(loading := false)
  }

  /** A failed fetch is invisible apart from the loading flag it raised and lowered. */
  lemma FailedFetchChangesNothing(s: ListingState, fs: FilterState)
    ensures EndFetch(BeginFetch(s, fs).0, FetchFailed) == s.(loading := false)
  {
  }

  /** What the grid area shows. */
  datatype Grid =
    | Skeletons(count: int)
    | Cards(items: seq<Product>)
    | NoProductsAvailable

  /** Loading placeholders win; otherwise the filtered products, or the
      empty-state message when none are left. */
  function RenderGrid(s: ListingState, fs: FilterState): (g: Grid)
    ensures g.Skeletons? <==> s.loading
    ensures g.Skeletons? ==> g.count == ItemsPerPage
    ensures g.Cards? ==> g.items == FilterProducts(s.products, fs) && |g.items| > 0
    ensures g.NoProductsAvailable? <==> !s.loading && FilterProducts(s.products, fs) == []
  {
    var shown := FilterProducts(s.products, fs);
    if s.loading then Skeletons(ItemsPerPage)
    else if |shown| > 0 then Cards(shown)
    else NoProductsAvailable
  }

  /** Beginning a fetch replaces whatever the grid showed by the placeholders. */
  lemma FetchShowsSkeletons(s: ListingState, fs: FilterState)
    ensures RenderGrid(BeginFetch(s, fs).0, fs) == Skeletons(ItemsPerPage)
  {
  }

  /** A failed fetch leaves the grid showing what the previous products give
      once loading has ended. */
  lemma FailedFetchKeepsGrid(s: ListingState, fs: FilterState)
    ensures RenderGrid(EndFetch(BeginFetch(s, fs).0, FetchFailed), fs) == RenderGrid(s.(loading := false), fs)
  {
  }
}
