# Storefront browsing UI — a Dafny model

This project models the logic of a small client-side storefront. The storefront
fetches products from a remote catalogue. It filters them by search text, keyword
shortcut, category and price range, pages through the listing, and shows a
product detail view. JSX, styling and the network are stripped away. What is left
is a set of pure transition functions over immutable records:

- `FilterContext` (`src/state/context.tsx`) is the shared filter store. It has
  five fields, one setter each, and the hook that refuses to run outside its
  provider. A price bound is `PriceBound = NoBound | Bound(real)`. This mirrors
  the source's `number | ""`, so "a price bound is a number or the no-bound
  marker" holds by construction.
- `MainContent` (`src/components/MainContent.tsx`) covers the rest of the grid:
  - which request the filters select, as a `Query` datatype rather than a URL;
  - the client-side filter, modelled as three passes over the fetched list;
  - the fixed page count, the page handler and its buttons;
  - the loading/fetch lifecycle and the grid's render branch.
- `Sidebar` (`src/components/SiderBar.tsx`) covers:
  - the category fetch and its `slice(1, 5)`;
  - price-input coercion, the keyword and category handlers;
  - the mobile-menu flag and "Reset Filters";
  - what the price boxes display.
- `ProductPage` (`src/components/ProductPage.tsx`) covers:
  - the detail fetch as a state machine over `loading`, `error`, `product` and
    `selectedImage`;
  - the render-branch order, the gallery and the star row;
  - the stock label and the add-to-cart rule.
- `Storefront` relates these parts. It proves what request follows a sidebar
  click and what the grid then shows.
- `Common` holds `Option`, `Result` and `Fetched` (a fetch outcome: `Loaded(data)`
  or `FetchFailed`). It also holds `Keep`, the order-preserving filter that
  `Array.prototype.filter` performs, with its lemmas: subsequence, exact
  multiplicities, fusion, idempotence.

Each remote request is an input to the model, never a call. The listing and
category fetches end in a `Fetched` value. The detail fetch ends in a
`DetailResponse`:

- `Delivered(product)`: a 2xx response with a product body;
- `NotOk`: a non-2xx status;
- `NullBody(message)`: a 2xx response whose body is `null`;
- `Threw(ErrorObject(message) | NonErrorValue)`: the request or the body parsing
  raised a value.

Prices and ratings are `real`. Stock is an `int`.

Three behaviours of the code are easy to miss:

- **Detail failures.** A raised `Error` may carry an empty message. The error
  branch tests the message for truthiness, so the view then falls through to the
  previous product or to "No product found" (`RaisedErrorShowsItsMessage`).
- **Null body.** A `null` body is first stored as the product. Reading its
  thumbnail then raises a `TypeError`, whose message becomes the error, and the
  view shows that message (`NullBodyShowsNoStaleProduct`).
- **Categories.** `slice(1, 5)` keeps at most four categories, and fewer when the
  remote list is short (`RetainedCategories`).

## Model

| member | source | states |
|---|---|---|
| FilterContext.Initial | src/state/context.tsx:32-37 | the provider starts with empty search text, keyword and category and with no price bounds |
| FilterContext.ClearedIsInitial | src/state/context.tsx:32-37 | a state with all five fields empty is exactly the initial state |
| FilterContext.SetSearchQuery | src/state/context.tsx:32 | the setter writes the search text and leaves the other four fields as they were |
| FilterContext.SetKeyword | src/state/context.tsx:37 | the setter writes the keyword and leaves the other four fields as they were |
| FilterContext.SetSelectedCategory | src/state/context.tsx:33-34 | the setter writes the category and leaves the other four fields as they were |
| FilterContext.SetMinPrice | src/state/context.tsx:35 | the setter writes the minimum bound and leaves the other four fields as they were |
| FilterContext.SetMaxPrice | src/state/context.tsx:36 | the setter writes the maximum bound and leaves the other four fields as they were |
| FilterContext.EditsOfDifferentFieldsCommute | src/state/context.tsx:40-52 | setters of different fields give the same state in either order |
| FilterContext.LastEditOfAFieldWins | src/state/context.tsx:40-52 | a second call of the same setter overrides the first entirely |
| FilterContext.UseFilterContext | src/state/context.tsx:59-67 | the hook returns the provider's value when there is one; without a provider it fails with the fixed message and never yields a default |
| MainContent.Ceil | src/components/MainContent.tsx:96-98 | the result is the least integer not below its argument |
| MainContent.TotalPagesIsNine | src/components/MainContent.tsx:95-98 | the page count is ceil(100 / 12) = 9, independent of any fetched data |
| MainContent.ChooseQuery | src/components/MainContent.tsx:46-55 | the request is a search exactly when search text or a keyword is set (the search text wins), a category request exactly when only the category is set, and otherwise a listing of 12 items skipping (page - 1) * 12 |
| MainContent.ListingQueryNamesItsPage | src/components/MainContent.tsx:46-48 | on a page >= 1 a listing skips a non-negative whole number of pages, and the page can be recovered from the skip |
| MainContent.PageAffectsOnlyListing | src/components/MainContent.tsx:46-55 | two pages give different requests only when both requests are listings |
| MainContent.QueryDeterminedByEffectKeys | src/components/MainContent.tsx:43-68 | when none of the effect's dependencies changed, the request would be identical, so the price bounds rightly stay off the list |
| MainContent.FilterProducts | src/components/MainContent.tsx:70-92 | the three passes leave exactly the fetched products meeting every active predicate, in fetched order, as a subsequence of the input |
| MainContent.PassesAreKeep | src/components/MainContent.tsx:70-92 | running passes one after another is a single filter by the conjunction of their predicates |
| MainContent.AnyOrderGivesSameResult | src/components/MainContent.tsx:70-92 | any order of the category, min-price and max-price passes, even with repeats, gives the same result when each pass runs at least once |
| MainContent.ShownIffMatches | src/components/MainContent.tsx:70-92 | a product is shown if and only if it was fetched and meets every active predicate |
| MainContent.NoActiveFilterShowsAll | src/components/MainContent.tsx:70-92 | with no category and no price bound the filtered list is the fetched list |
| MainContent.FilterIdempotent | src/components/MainContent.tsx:70-92 | filtering the filtered list again changes nothing |
| MainContent.HandlePageChange | src/components/MainContent.tsx:100-104 | a request for page p moves to p exactly when 1 <= p <= 9, is otherwise a no-op, and keeps a valid page valid |
| MainContent.PageStaysInRange | src/components/MainContent.tsx:100-104 | from a valid page, any sequence of page requests ends on a valid page |
| MainContent.InitialPageInRange | src/components/MainContent.tsx:24 | starting from page 1, every sequence of page requests keeps the page within 1..9 |
| MainContent.DisabledExactlyWhenIgnored | src/components/MainContent.tsx:153-168 | on a valid page, "Previous" (disabled at page 1) and "Next" (disabled at page 9) are disabled exactly when the request they would send is ignored |
| MainContent.ClickPrevious | src/components/MainContent.tsx:154-160 | a disabled "Previous" does nothing; an enabled one on a valid page moves back one page |
| MainContent.ClickNext | src/components/MainContent.tsx:162-168 | a disabled "Next" does nothing; an enabled one on a valid page moves forward one page |
| MainContent.BeginFetch | src/components/MainContent.tsx:44-55 | a fetch raises the loading flag, keeps page and products, and issues the request chosen for the current filters and page |
| MainContent.EndFetch | src/components/MainContent.tsx:57-64 | a delivered list replaces the products, a failure keeps the previous ones, and loading always ends |
| MainContent.FailedFetchChangesNothing | src/components/MainContent.tsx:57-64 | a fetch that fails leaves the grid state as it was, apart from the loading flag coming back down |
| MainContent.FetchShowsSkeletons | src/components/MainContent.tsx:45 | once a fetch begins, the grid shows the 12 loading placeholders, whatever it showed before |
| MainContent.FailedFetchKeepsGrid | src/components/MainContent.tsx:57-64 | after a failed fetch the grid shows what the previous products gave once loading ended: the same cards or the same empty-state message |
| MainContent.RenderGrid | src/components/MainContent.tsx:109-150 | while loading, 12 placeholders show; otherwise the filtered products show when there are any, and the empty-state message exactly when there are none |
| Sidebar.Mount | src/components/SiderBar.tsx:16-32 | the sidebar mounts with the menu closed and no categories |
| Sidebar.Slice | src/components/SiderBar.tsx:62 | the slice has the length JavaScript's slice gives for non-negative bounds and holds the input's elements from the start index on |
| Sidebar.RetainedCategories | src/components/SiderBar.tsx:62 | the kept categories are the fetched ones at positions 1..4, in order, at most four of them |
| Sidebar.FinishCategoryFetch | src/components/SiderBar.tsx:56-66 | a delivered list is trimmed and stored; a failure leaves the sidebar unchanged |
| Sidebar.RenderCategories | src/components/SiderBar.tsx:141-165 | one radio per category, checked exactly when its slug is the selected category; the "No categories available" message exactly when there are no categories |
| Sidebar.FailedCategoryFetchShowsNone | src/components/SiderBar.tsx:30-69 | if the only category fetch fails, the list stays empty and the empty-list message shows |
| Sidebar.CoercePriceInput | src/components/SiderBar.tsx:119-123 | empty text becomes "no bound"; any other text becomes a bound at its numeric value |
| Sidebar.TypeSearch | src/components/SiderBar.tsx:109-111 | typing in the search box writes only the search text |
| Sidebar.TypeMinPrice | src/components/SiderBar.tsx:119-123 | typing in the min box writes only the coerced minimum bound |
| Sidebar.TypeMaxPrice | src/components/SiderBar.tsx:129-133 | typing in the max box writes only the coerced maximum bound |
| Sidebar.ClickKeyword | src/components/SiderBar.tsx:177-180 | a keyword click sets the keyword to one of the six non-empty fixed words, leaves search text and category unchanged, and closes the menu |
| Sidebar.SelectCategory | src/components/SiderBar.tsx:153-156 | choosing a radio sets the category to that category's slug, leaves the other fields unchanged, and closes the menu |
| Sidebar.SelectedRadioIsChecked | src/components/SiderBar.tsx:147-156 | after choosing a category, exactly the radios with that slug are checked |
| Sidebar.ToggleMobileMenu | src/components/SiderBar.tsx:51-53 | the toggle negates the menu flag and touches nothing else |
| Sidebar.ToggleTwiceRestores | src/components/SiderBar.tsx:51-53 | toggling twice restores the state |
| Sidebar.HandleReset | src/components/SiderBar.tsx:42-49 | reset empties all five filter fields, closes the menu, and keeps the categories |
| Sidebar.ResetRestoresInitial | src/components/SiderBar.tsx:42-49 | after reset the store equals the provider's initial state |
| Sidebar.DisplayedPriceAsWritten | src/components/SiderBar.tsx:115-134 | as written, a price box is blank exactly when there is no bound or the bound is 0 |
| Sidebar.DisplayedPrice | src/components/SiderBar.tsx:115-134 | as intended, a price box is blank exactly when there is no bound, and otherwise shows the bound |
| Sidebar.TypedPriceShows | src/components/SiderBar.tsx:125-134 | with the intended display, a price box is blank exactly when the typed text is empty, and otherwise shows the typed value |
| Sidebar.TypedZeroLooksEmpty | src/components/SiderBar.tsx:125-134 | as written, typing "0" leaves the box looking like "no bound" although a bound is set |
| ProductPage.ErrorText | src/components/ProductPage.tsx:48-53 | an `Error` records its own message; any other raised value records "An unknown error occurred" |
| ProductPage.StartFetch | src/components/ProductPage.tsx:34-36 | starting a fetch sets loading and clears the error, keeping product and selected image |
| ProductPage.FinishFetch | src/components/ProductPage.tsx:33-57 | loading always ends; success stores the product and selects its thumbnail; a non-2xx status records "Failed to fetch product"; a raised value records its message; failures keep product and selection, except that a null body nulls the product |
| ProductPage.MainImage | src/components/ProductPage.tsx:113 | the large image is the selected image when it is a non-empty string, otherwise the thumbnail |
| ProductPage.SelectImage | src/components/ProductPage.tsx:133 | clicking gallery image i selects images[i] and changes nothing else |
| ProductPage.FilledPrefixCount | src/components/ProductPage.tsx:67-72 | a row whose entries are filled exactly below k has k filled entries, clamped to the row's length |
| ProductPage.FilledStarCount | src/components/ProductPage.tsx:62-78 | the star row has exactly five stars, of which min(5, max(0, floor(rating))) are filled |
| ProductPage.StockLabelOf | src/components/ProductPage.tsx:163-166 | the label reads "N in stock" exactly when stock > 0, otherwise "Out of stock" |
| ProductPage.LabelAgreesWithButton | src/components/ProductPage.tsx:164-184 | for a stock of 0 or more, add-to-cart is disabled (stock exactly 0) exactly when the label says "Out of stock" |
| ProductPage.NegativeStockDisagrees | src/components/ProductPage.tsx:164-184 | for every negative stock the label says "Out of stock" but the button stays enabled |
| ProductPage.Render | src/components/ProductPage.tsx:80-104 | spinner while loading; then the error when it is a non-empty string; then "No product found" without a product; otherwise the detail view with main image, gallery highlights, stars, stock label and button state |
| ProductPage.InitialShowsNoProduct | src/components/ProductPage.tsx:23-30 | before any fetch the view reads "No product found" |
| ProductPage.FetchingShowsSpinner | src/components/ProductPage.tsx:35-36 | while a fetch is in flight only the spinner shows |
| ProductPage.SuccessfulFetchShowsProduct | src/components/ProductPage.tsx:45-47 | after a successful fetch the detail view shows, with the thumbnail as large image and highlighted wherever it occurs in the gallery |
| ProductPage.NotOkShowsFailure | src/components/ProductPage.tsx:41-43 | after a non-2xx response the view shows "Failed to fetch product" |
| ProductPage.NonErrorShowsUnknown | src/components/ProductPage.tsx:48-53 | after a raised non-`Error` value the view shows "An unknown error occurred" |
| ProductPage.RaisedErrorShowsItsMessage | src/components/ProductPage.tsx:90-96 | a raised `Error` shows its message; an empty message falls through to the previous product or to "No product found" |
| ProductPage.NullBodyShowsNoStaleProduct | src/components/ProductPage.tsx:45-47 | a null body shows the resulting `TypeError` message, or "No product found" if that message is empty, never an older product |
| ProductPage.GalleryClickShowsImage | src/components/ProductPage.tsx:113-133 | after clicking gallery image i it is highlighted, and it is the large image when it is a non-empty string |
| Storefront.ResetLeadsToListing | src/components/SiderBar.tsx:42-49 | after reset the next request is the paged listing for the current page |
| Storefront.ResetShowsEverything | src/components/MainContent.tsx:70-92 | after reset every fetched product is shown |
| Storefront.KeywordClickQuery | src/components/SiderBar.tsx:177-180 | a keyword click issues a search for that keyword, unless search text is present, in which case the request is unchanged |
| Storefront.CategoryChoiceQuery | src/components/SiderBar.tsx:153-156 | choosing a category with a non-empty slug requests that category when no search text or keyword is set, and always limits the grid to it |
| Storefront.PriceTypingDoesNotRefetch | src/components/MainContent.tsx:68 | typing a price bound changes none of the effect's dependencies, so no request is issued |
| Storefront.MinPriceTypingRefilters | src/components/MainContent.tsx:79-83 | a typed minimum hides exactly the cheaper products among those the other filters let through |
| Storefront.ZeroMaximumHidesProducts | src/components/SiderBar.tsx:128 | as written, a maximum of 0 looks the same as no maximum but hides a product that no maximum would show |

## Findings

| source | as written | input that shows it | evidently intended | confidence | as-written member | corrected member |
|---|---|---|---|---|---|---|
| src/components/SiderBar.tsx:118 | each price box (min at line 118, max at line 128) displays its bound through a falsy test, so a bound of 0 displays as a blank box | typing "0" into the max box: the box shows blank, the maximum is 0, and every product priced above 0 disappears | a blank box exactly when there is no bound | medium, not executed | Sidebar.DisplayedPriceAsWritten (exhibited by Sidebar.TypedZeroLooksEmpty and Storefront.ZeroMaximumHidesProducts) | Sidebar.DisplayedPrice (proved by Sidebar.TypedPriceShows) |

## Left out

- The network layer is not modelled: axios, `fetch`, the endpoints and their URLs. Each request's outcome is an input to the transition that consumes it, and a request is a `Query` value, not a URL string.
- Overlapping fetches, out-of-order responses and updates after unmount are not modelled. They are asynchronous interleavings with no sequencing in the code.
- Responses of the wrong shape are not modelled: a listing response without `products`, or a category body that is not an array. The code trusts the shape.
- JavaScript number parsing is not modelled (NaN, rounding). The value of `+text` is the parameter `numeric` of `Sidebar.CoercePriceInput`.
- `toFixed` formatting, `toUpperCase` labels, `console.log`, and the conversion of a stock count to text are not modelled.
- Stock is an integer count, as the catalogue delivers it. A fractional stock is not modelled.
- JSX markup, styling, icons and the mobile overlay's appearance are not modelled. The menu-open flag is modelled.
- Card clicks that navigate to the detail route are not modelled. They are routing, as are src/App.tsx and src/main.tsx.
- src/components/Loading.tsx is not modelled; it is static placeholder markup.
- React's functional-update form of the setters is not modelled. The components only ever pass plain values.
- The route's `id` is not modelled. It only selects which remote record the detail fetch returns, and that record is an input.
