/** How the sidebar's controls reach the grid through the shared filter
    store: which request follows a click, and what the grid then shows. */
module Storefront {
  import opened FilterContext
  import opened MainContent
  import opened Sidebar

  /** After "Reset Filters" the next request is the paged listing for the
      current page. */
  lemma ResetLeadsToListing(s: SidebarState, currentPage: int)
    ensures ChooseQuery(HandleReset(s).filters, currentPage) == Listing(ItemsPerPage, (currentPage - 1) * ItemsPerPage)
  {
  }

  /** After "Reset Filters" every fetched product is shown. */
  lemma ResetShowsEverything(s: SidebarState, xs: seq<Product>)
    ensures FilterProducts(xs, HandleReset(s).filters) == xs
  {
    NoActiveFilterShowsAll(xs, HandleReset(s).filters);
  }

  /** A keyword click searches for that keyword unless search text is present,
      in which case the request does not change at all. */
  lemma KeywordClickQuery(s: SidebarState, i: nat, currentPage: int)
    requires i < |Keywords|
    ensures var q := ChooseQuery(ClickKeyword(s, i).filters, currentPage);
      && (s.filters.searchQuery == "" ==> q == Search(Keywords[i]))
      && (s.filters.searchQuery != "" ==> q == ChooseQuery(s.filters, currentPage))
  {
  }

  /** Choosing a category with a non-empty slug asks for that category when
      neither search text nor a keyword is set, and in every case narrows the
      grid to that category. (An empty slug would count as no category.) */
  lemma CategoryChoiceQuery(s: SidebarState, i: nat, currentPage: int, xs: seq<Product>, p: Product)
    requires i < |s.categories|
    ensures var after := SelectCategory(s, i).filters;
      && (s.filters.searchQuery == "" && s.filters.keyword == "" && s.categories[i].slug != "" ==>
            ChooseQuery(after, currentPage) == Query.Category(s.categories[i].slug))
      && (s.categories[i].slug != "" && p in FilterProducts(xs, after) ==> p.category == s.categories[i].slug)
  {
    ShownIffMatches(xs, SelectCategory(s, i).filters, p);
  }

  /** Typing a price bound touches none of the effect's keys, so no request is
      issued; only the local filter changes. */
  lemma PriceTypingDoesNotRefetch(s: SidebarState, text: string, numeric: real, currentPage: int)
    ensures !EffectKeysChanged(s.filters, currentPage, TypeMinPrice(s, text, numeric).filters, currentPage)
    ensures !EffectKeysChanged(s.filters, currentPage, TypeMaxPrice(s, text, numeric).filters, currentPage)
  {
  }

  /** A typed minimum price hides exactly the cheaper products among those
      the other filters let through. */
  lemma MinPriceTypingRefilters(s: SidebarState, text: string, numeric: real, xs: seq<Product>, p: Product)
    requires text != ""
    ensures var before := s.filters.(minPrice := NoBound);
      p in FilterProducts(xs, TypeMinPrice(s, text, numeric).filters) <==>
        p in FilterProducts(xs, before) && p.price >= numeric
  {
    var before := s.filters.(minPrice := NoBound);
    ShownIffMatches(xs, TypeMinPrice(s, text, numeric).filters, p);
    ShownIffMatches(xs, before, p);
  }

  /** The price-box finding: as written, a maximum of 0 looks exactly like no
      maximum, yet it hides a product the empty box would show. */
  lemma ZeroMaximumHidesProducts(s: SidebarState, p: Product)
    requires s.filters.searchQuery == "" && s.filters.keyword == "" && s.filters.selectedCategory == ""
    requires s.filters.minPrice == NoBound && s.filters.maxPrice == NoBound
    requires p.price > 0.0
    ensures var typed := TypeMaxPrice(s, "0", 0.0).filters;
      && DisplayedPriceAsWritten(typed.maxPrice) == DisplayedPriceAsWritten(s.filters.maxPrice)
      && FilterProducts([p], s.filters) == [p]
      && FilterProducts([p], typed) == []
  {
    var typed := TypeMaxPrice(s, "0", 0.0).filters;
    ShownIffMatches([p], typed, p);
    NoActiveFilterShowsAll([p], s.filters);
  }
}
