/** The shared filter store (src/state/context.tsx): five fields, one setter
    each, and the hook that refuses to run outside its provider. */
module FilterContext {
  import opened Common

  /** A price bound as the store holds it: a number, or the empty-string
      marker that means "no bound". No third kind of value exists. */
  datatype PriceBound = NoBound | Bound(value: real)

  datatype FilterState = FilterState(
    searchQuery: string,
    keyword: string,
    selectedCategory: string,
    minPrice: PriceBound,
    maxPrice: PriceBound)

  /** Every field holds its empty value. */
  predicate Cleared(fs: FilterState) {
    && fs.searchQuery == ""
    && fs.keyword == ""
    && fs.selectedCategory == ""
    && fs.minPrice == NoBound
    && fs.maxPrice == NoBound
  }

  /** The state the provider creates when the application starts. */
  function Initial(): (fs: FilterState)
    ensures Cleared(fs)
  {
    FilterState("", "", "", NoBound, NoBound)
  }

  /** The cleared state is unique: it is the initial state. */
  lemma ClearedIsInitial(fs: FilterState)
    ensures Cleared(fs) <==> fs == Initial()
  {
  }

  function SetSearchQuery(fs: FilterState, q: string): (r: FilterState)
    ensures r.searchQuery == q
    ensures r.keyword == fs.keyword && r.selectedCategory == fs.selectedCategory
    ensures r.minPrice == fs.minPrice && r.maxPrice == fs.maxPrice
  {
    fs.(searchQuery := q)
  }

  function SetKeyword(fs: FilterState, k: string): (r: FilterState)
    ensures r.keyword == k
    ensures r.searchQuery == fs.searchQuery && r.selectedCategory == fs.selectedCategory
    ensures r.minPrice == fs.minPrice && r.maxPrice == fs.maxPrice
  {
    fs.(keyword := k)
  }

  function SetSelectedCategory(fs: FilterState, c: string): (r: FilterState)
    ensures r.selectedCategory == c
    ensures r.searchQuery == fs.searchQuery && r.keyword == fs.keyword
    ensures r.minPrice == fs.minPrice && r.maxPrice == fs.maxPrice
  {
    fs.(selectedCategory := c)
  }

  function SetMinPrice(fs: FilterState, b: PriceBound): (r: FilterState)
    ensures r.minPrice == b
    ensures r.searchQuery == fs.searchQuery && r.keyword == fs.keyword
    ensures r.selectedCategory == fs.selectedCategory && r.maxPrice == fs.maxPrice
  {
    fs.(minPrice := b)
  }

  function SetMaxPrice(fs: FilterState, b: PriceBound): (r: FilterState)
    ensures r.maxPrice == b
    ensures r.searchQuery == fs.searchQuery && r.keyword == fs.keyword
    ensures r.selectedCategory == fs.selectedCategory && r.minPrice == fs.minPrice
  {
    fs.(maxPrice := b)
  }

  /** One call of one of the five setters. */
  datatype Edit =
    | EditSearchQuery(q: string)
    | EditKeyword(k: string)
    | EditCategory(c: string)
    | EditMinPrice(min: PriceBound)
    | EditMaxPrice(max: PriceBound)

  datatype Field = SearchQueryField | KeywordField | CategoryField | MinPriceField | MaxPriceField

  /** The field a setter writes. */
  function Target(e: Edit): Field {
    match e
    case EditSearchQuery(_) => SearchQueryField
    case EditKeyword(_) => KeywordField
    case EditCategory(_) => CategoryField
    case EditMinPrice(_) => MinPriceField
    case EditMaxPrice(_) => MaxPriceField
  }

  function Apply(fs: FilterState, e: Edit): FilterState {
    match e
    case EditSearchQuery(q) => SetSearchQuery(fs, q)
    case EditKeyword(k) => SetKeyword(fs, k)
    case EditCategory(c) => SetSelectedCategory(fs, c)
    case EditMinPrice(b) => SetMinPrice(fs, b)
    case EditMaxPrice(b) => SetMaxPrice(fs, b)
  }

  /** Setters of different fields do not interfere: their order is irrelevant. */
  lemma EditsOfDifferentFieldsCommute(fs: FilterState, e1: Edit, e2: Edit)
    requires Target(e1) != Target(e2)
    ensures Apply(Apply(fs, e1), e2) == Apply(Apply(fs, e2), e1)
  {
  }

  /** A later call of the same setter overwrites an earlier one completely. */
  lemma LastEditOfAFieldWins(fs: FilterState, e1: Edit, e2: Edit)
    requires Target(e1) == Target(e2)
    ensures Apply(Apply(fs, e1), e2) == Apply(fs, e2)
  {
  }

  const OutsideProviderMessage := "useFilterContext must be used within FilterContextProvider"

  /** Reading the store: `provided` is the value of the nearest provider, if any.
      Without a provider the hook throws; it never falls back to a default. */
  function UseFilterContext(provided: Option<FilterState>): (r: Result<FilterState>)
    ensures r.Ok? <==> provided.Some?
    ensures r.Ok? ==> r.value == provided.value
    ensures r.Err? ==> r.message == OutsideProviderMessage
  {
    match provided
    case None => Err(OutsideProviderMessage)
    case Some(fs) => Ok(fs)
  }
}
