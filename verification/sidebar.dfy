/** The filter sidebar (src/components/SiderBar.tsx): its local state (the
    mobile-menu flag and the fetched categories) together with the shared
    filter store that its controls write. */
module Sidebar {
  import opened Common
  import opened FilterContext

  datatype Category = Category(slug: string, name: string, url: string)

  datatype SidebarState = SidebarState(filters: FilterState, menuOpen: bool, categories: seq<Category>)

  /** The sidebar as it mounts: menu closed, no categories yet. */
  function Mount(fs: FilterState): (s: SidebarState)
    ensures s.filters == fs && !s.menuOpen && s.categories == []
  {
    SidebarState(fs, false, [])
  }

  /** The six fixed keyword shortcuts. */
  const Keywords: seq<string> := ["apple", "watch", "fashion", "trend", "shoes", "shirt"]

  /** `Array.prototype.slice(start, end)` for non-negative bounds. */
  function Slice<T>(xs: seq<T>, start: nat, end: nat): (r: seq<T>)
    ensures |r| == if start < end && start < |xs| then (if end < |xs| then end else |xs|) - start else 0
    ensures forall i :: 0 <= i < |r| ==> r[i] == xs[start + i]
  {
    var stop := if end < |xs| then end else |xs|;
    if start < stop then xs[start..stop] else []
  }

  /** The categories kept from the remote list: positions 1 to 4, in order. */
  function RetainedCategories(data: seq<Category>): (r: seq<Category>)
    ensures |r| <= 4
    ensures |r| == if |data| <= 1 then 0 else if |data| >= 5 then 4 else |data| - 1
    ensures forall i :: 0 <= i < |r| ==> r[i] == data[i + 1]
  {
    Slice(data, 1, 5)
  }

  /** The one category fetch at mount: a delivered list is trimmed and stored,
      a failure (only logged) leaves the sidebar as it was. */
  function FinishCategoryFetch(s: SidebarState, outcome: Fetched<seq<Category>>): (r: SidebarState)
    ensures outcome.Loaded? ==> r.categories == RetainedCategories(outcome.data)
    ensures outcome.FetchFailed? ==> r == s
    ensures r.filters == s.filters && r.menuOpen == s.menuOpen
  {
    match outcome
    case Loaded(data) => s.(categories := RetainedCategories(data))
    case FetchFailed => s
  }

  /** What the categories block shows: one radio per category, checked when
      its slug is the selected category, or the empty-list message. */
  datatype CategoryList = Radios(slugs: seq<string>, checked: seq<bool>) | NoCategoriesAvailable

  function RenderCategories(s: SidebarState): (v: CategoryList)
    ensures v.NoCategoriesAvailable? <==> |s.categories| == 0
    ensures v.Radios? ==> |v.slugs| == |v.checked| == |s.categories|
    ensures v.Radios? ==> forall i :: 0 <= i < |v.slugs| ==>
      v.slugs[i] == s.categories[i].slug && (v.checked[i] <==> v.slugs[i] == s.filters.selectedCategory)
  {
    if |s.categories| > 0 then
      Radios(seq(|s.categories|, i requires 0 <= i < |s.categories| => s.categories[i].slug),
             seq(|s.categories|, i requires 0 <= i < |s.categories| => s.categories[i].slug == s.filters.selectedCategory))
    else NoCategoriesAvailable
  }

  /** If the only category fetch fails, the empty-list message stays. */
  lemma FailedCategoryFetchShowsNone(fs: FilterState)
    ensures RenderCategories(FinishCategoryFetch(Mount(fs), FetchFailed)) == NoCategoriesAvailable
  {
  }

  /** The value a price input hands to the store: empty text means "no bound",
      any other text its numeric value `numeric` (JavaScript's `+text`). */
  function CoercePriceInput(text: string, numeric: real): (b: PriceBound)
    ensures b.NoBound? <==> text == ""
    ensures b.Bound? ==> b.value == numeric
  {
    if text != "" then Bound(numeric) else NoBound
  }

  function TypeSearch(s: SidebarState, text: string): (r: SidebarState)
    ensures r.filters == SetSearchQuery(s.filters, text)
    ensures r.menuOpen == s.menuOpen && r.categories == s.categories
  {
    s.(filters := SetSearchQuery(s.filters, text))
  }

  function TypeMinPrice(s: SidebarState, text: string, numeric: real): (r: SidebarState)
    ensures r.filters == SetMinPrice(s.filters, CoercePriceInput(text, numeric))
    ensures r.menuOpen == s.menuOpen && r.categories == s.categories
  {
    s.(filters := SetMinPrice(s.filters, CoercePriceInput(text, numeric)))
  }

  function TypeMaxPrice(s: SidebarState, text: string, numeric: real): (r: SidebarState)
    ensures r.filters == SetMaxPrice(s.filters, CoercePriceInput(text, numeric))
    ensures r.menuOpen == s.menuOpen && r.categories == s.categories
  {
    s.(filters := SetMaxPrice(s.filters, CoercePriceInput(text, numeric)))
  }

  /** Clicking keyword button `i`: only the keyword changes, to a non-empty
      fixed word, and the menu closes. */
  function ClickKeyword(s: SidebarState, i: nat): (r: SidebarState)
    requires i < |Keywords|
    ensures r.filters.keyword in Keywords && r.filters.keyword != ""
    ensures r.filters == SetKeyword(s.filters, Keywords[i])
    ensures r.filters.searchQuery == s.filters.searchQuery
    ensures r.filters.selectedCategory == s.filters.selectedCategory
    ensures !r.menuOpen && r.categories == s.categories
  {
    s.(filters := SetKeyword(s.filters, Keywords[i]), menuOpen := false)
  }

  /** Choosing the radio of category `i`: only the selected category changes,
      to that slug, and the menu closes. */
  function SelectCategory(s: SidebarState, i: nat): (r: SidebarState)
    requires i < |s.categories|
    ensures r.filters == SetSelectedCategory(s.filters, s.categories[i].slug)
    ensures r.filters.selectedCategory in set c | c in s.categories :: c.slug
    ensures r.filters.searchQuery == s.filters.searchQuery && r.filters.keyword == s.filters.keyword
    ensures !r.menuOpen && r.categories == s.categories
  {
    s.(filters := SetSelectedCategory(s.filters, s.categories[i].slug), menuOpen := false)
  }

  /** After choosing a category its radio is checked, and so is every other
      radio with the same slug, but no other. */
  lemma SelectedRadioIsChecked(s: SidebarState, i: nat)
    requires i < |s.categories|
    ensures var v := RenderCategories(SelectCategory(s, i));
      v.Radios? && forall j :: 0 <= j < |v.checked| ==> (v.checked[j] <==> s.categories[j].slug == s.categories[i].slug)
  {
  }

  function ToggleMobileMenu(s: SidebarState): (r: SidebarState)
    ensures r.menuOpen == !s.menuOpen
    ensures r.filters == s.filters && r.categories == s.categories
  {
    s.(menuOpen := !s.menuOpen)
  }

  lemma ToggleTwiceRestores(s: SidebarState)
    ensures ToggleMobileMenu(ToggleMobileMenu(s)) == s
  {
  }

  /** "Reset Filters": all five filter fields go back to empty and the menu
      closes; the categories stay. */
  function HandleReset(s: SidebarState): (r: SidebarState)
    ensures Cleared(r.filters)
    ensures !r.menuOpen && r.categories == s.categories
  {
    var fs1 := SetSearchQuery(s.filters, "");
    var fs2 := SetKeyword(fs1, "");
    var fs3 := SetMinPrice(fs2, NoBound);
    var fs4 := SetMaxPrice(fs3, NoBound);
    var fs5 := SetSelectedCategory(fs4, "");
    s.(filters := fs5, menuOpen := false)
  }

  /** Reset returns the store to exactly the state the provider started with. */
  lemma ResetRestoresInitial(s: SidebarState)
    ensures HandleReset(s).filters == Initial()
  {
    ClearedIsInitial(HandleReset(s).filters);
  }

  // ---------------------------------------------------------------------
  // What a price input displays
  // ---------------------------------------------------------------------

  /** The text a number input shows: blank, or a number. */
  datatype PriceField = Blank | Shows(amount: real)

  /** The input as written (`value={minPrice || ""}`): a bound of 0 is falsy
      and so displays blank, like "no bound". */
  function DisplayedPriceAsWritten(b: PriceBound): (f: PriceField)
    ensures f.Blank? <==> b.NoBound? || b.value == 0.0
    ensures f.Shows? ==> b == Bound(f.amount)
  {
    match b
    case NoBound => Blank
    case Bound(v) => if v != 0.0 then Shows(v) else Blank
  }

  /** The input as intended: blank exactly when there is no bound. */
  function DisplayedPrice(b: PriceBound): (f: PriceField)
    ensures f.Blank? <==> b.NoBound?
    ensures f.Shows? ==> b == Bound(f.amount)
  {
    match b
    case NoBound => Blank
    case Bound(v) => Shows(v)
  }

  /** With the intended display, what was typed shows: the field is blank
      exactly when the typed text is empty, and otherwise shows its value. */
  lemma TypedPriceShows(s: SidebarState, text: string, numeric: real)
    ensures var f := DisplayedPrice(TypeMaxPrice(s, text, numeric).filters.maxPrice);
      (f.Blank? <==> text == "") && (f.Shows? ==> f.amount == numeric)
  {
  }

  /** As written, typing "0" into a price box leaves it looking empty although
      a bound of 0 is now in force. */
  lemma TypedZeroLooksEmpty(s: SidebarState)
    ensures var after := TypeMaxPrice(s, "0", 0.0).filters.maxPrice;
      DisplayedPriceAsWritten(after) == DisplayedPriceAsWritten(NoBound) && after != NoBound
  {
  }
}
