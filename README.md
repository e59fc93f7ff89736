# Storefront views: a Dafny model

This project models the logic inside the views of a small React storefront
(a product catalog with a filter sidebar and pagination, product tiles, a
cart page and a cart header). That logic is a handful of derivations and
small state updates:

- the pagination window of at most five page numbers and the
  Previous / Next buttons (`Pagination`);
- the sidebar's category list, its three conjunctive filters and the state
  its controls update (`ProductFilters`);
- the per-category count loop, the page count, the page slice and the page
  state that filter changes and page buttons update (`ProductList`);
- the cart page's quantity controls, totals and empty/summary conditions
  (`CartPage`), the header's badge and four-line preview (`CartHeader`),
  both using the quantity total and the three-word short title
  (`CartItems`);
- a product tile's cart-quantity lookup and its add-to-cart guard
  (`ProductCard`).

Shared modules model the JavaScript built-ins the views rely on:
`Array.prototype.slice` with negative and out-of-range bounds (`JsArray`),
`split(' ')`, `join(' ')`, an ASCII-only `toLowerCase` and `includes`
(`JsString`), `Math.min`/`Math.max` (`JsMath`). `Storefront` holds the
records: `Product`, `CartItem`, and `CartAction`, the calls the views make
to the cart store (`addToCart`, `updateQuantity`, `removeFromCart`,
`clearCart`). The store itself is not part of this model: a view returns the
call it would make, with the arguments it computed, and nothing is assumed
about its effect. Where a lemma needs a fact about the store (that its
`getCartCount()` is the quantity total, that every line holds at least one
unit, that no two lines share an id), that fact is an assumption, stated as
a `requires` of the lemma.

Prices are exact decimals (`real`); the price slider's value is an `int`
(the range input yields whole numbers from 0 to 100).

The page count of an empty list is 0, and the pagination control is then
not rendered.

## Model

| member | source | states |
|---|---|---|
| Pagination.GetPageNumbers | src/features/products/Pagination.jsx:2-18 | at most 5 pages, all in [1, totalPages], consecutive and strictly increasing; empty when totalPages <= 0; exactly min(5, totalPages) pages otherwise, starting at max(1, min(currentPage-2, totalPages-4)); contains currentPage when it is in range; exactly currentPage-2..currentPage+2 when those all exist |
| Pagination.NavigationStaysInRange | src/features/products/Pagination.jsx:24-49 | Previous is disabled iff on page 1 and otherwise asks for currentPage-1; Next is disabled iff on the last page and otherwise asks for currentPage+1; from a page in range both ask for a page in range |
| ProductFilters.Filter | src/features/products/ProductFilters.jsx:17-23 | the result is an order-preserving subsequence of the products; each product occurs in it as often as in the input if it matches category, price limit and case-insensitive title search, and not at all otherwise |
| ProductFilters.FilterIdempotent | src/features/products/ProductFilters.jsx:17-23 | filtering the filtered list again with the same settings returns it unchanged |
| ProductFilters.EmptySearchMatchesEveryTitle | src/features/products/ProductFilters.jsx:20 | an empty search term matches every title |
| ProductFilters.FilterKeepsEverything | src/features/products/ProductFilters.jsx:17-23 | with category "all", a price limit at or above every price and an empty search, the filter returns the products unchanged |
| ProductFilters.SearchIgnoresCase | src/features/products/ProductFilters.jsx:20 | a search term and its lower-case form select the same products |
| ProductFilters.Dedup | src/features/products/ProductFilters.jsx:11 | the Set spread keeps exactly the values of its input, each once, in order of first occurrence |
| ProductFilters.UniqueCategoriesSpec | src/features/products/ProductFilters.jsx:11 | the category list starts with "all"; the entries after it are distinct, include every product's category, name only categories that occur and follow first-appearance order |
| ProductFilters.CategoriesDistinctWithoutAllCategory | src/features/products/ProductFilters.jsx:11 | when no product's category is literally "all", the whole list is duplicate-free |
| ProductFilters.FilterState.constructor | src/features/products/ProductFilters.jsx:4-7 | the sidebar starts with no categories, category "all", price limit 100 and an empty search term |
| ProductFilters.FilterState.ReceiveProducts | src/features/products/ProductFilters.jsx:10-26 | a new catalog rebuilds the category list and hands the re-filtered catalog to onFilterChange |
| ProductFilters.FilterState.SelectCategory | src/features/products/ProductFilters.jsx:49 | clicking a category sets it; clicking the one already selected hands nothing on (React skips the unchanged update), any other hands the re-filtered catalog on |
| ProductFilters.FilterState.SetPriceRange | src/features/products/ProductFilters.jsx:71 | moving the slider sets the price limit; the re-filtered catalog is handed on only when the limit changed |
| ProductFilters.FilterState.SetSearchTerm | src/features/products/ProductFilters.jsx:37 | editing the search box sets the term; the re-filtered catalog is handed on only when the term changed |
| ProductList.CountCategories | src/features/products/ProductList.jsx:19-22 | after the loop the dictionary's keys are exactly the categories present and each maps to the number of products with that category (at least 1) |
| ProductList.CategoryCountsSumToCatalogSize | src/features/products/ProductList.jsx:19-22 | the categories counted are the sidebar's entries after "all", and their counts add up to the number of products |
| ProductList.PageCountIsCeiling | src/features/products/ProductList.jsx:14-35 | totalPages is 0 iff there are no products, and otherwise (totalPages-1)*8 < n <= totalPages*8 |
| ProductList.PageSliceSpec | src/features/products/ProductList.jsx:36-39 | from page 1 on, the page shows the products at indices [(p-1)*8, min(p*8, n)): at most 8, and at least one for every page up to totalPages |
| ProductList.PagesReassembleList | src/features/products/ProductList.jsx:35-39 | the slices of pages 1..totalPages, concatenated, are the filtered list |
| ProductList.TwentyProductsExample | src/features/products/ProductList.jsx:35-39 | 20 products make 3 pages; page 1 is items 0..7, page 3 is items 16..19 and has Next disabled |
| ProductList.ListState.constructor | src/features/products/ProductList.jsx:9-12 | the page starts on page 1 with an empty list and no counts |
| ProductList.ListState.FinishLoading | src/features/products/ProductList.jsx:16-25 | when loading ends the counts are rebuilt and the filtered list becomes the whole catalog; the page is left alone |
| ProductList.ListState.HandleFilterChange | src/features/products/ProductList.jsx:27-30 | a filter change replaces the list and resets to page 1, which then shows the list's first 8 products |
| ProductList.ListState.ClickPrevious | src/features/products/ProductList.jsx:75-81 | with the control shown (more than one page) and not on page 1, goes back one page; otherwise nothing changes; keeps the page in range |
| ProductList.ListState.ClickNext | src/features/products/ProductList.jsx:75-81 | with the control shown and not on the last page, goes forward one page; otherwise nothing changes; keeps the page in range |
| ProductList.ListState.ClickPageNumber | src/features/products/ProductList.jsx:75-81 | with the control shown, the k-th button leads to page max(1, min(currentPage-2, totalPages-4)) + k; a button that does not exist changes nothing; every change lands in [1, totalPages] |
| CartItems.QuantitySumAtLeastLineCount | src/features/cart/CartPage.jsx:26-139 | the header's "{n} items" counts lines and "Total items" counts units: with at least one unit per line, the quantity total is at least the number of lines, and equal iff every line holds one unit |
| CartItems.ShortTitleSpec | src/features/cart/CartPage.jsx:147 | the short title is the title up to (not including) its third space, or the whole title if it has fewer: a prefix, followed in the title by a space or nothing, with min(2, spaces) spaces |
| CartPage.SummaryChipsSpec | src/features/cart/CartPage.jsx:145-149 | one chip per line, in cart order, with the line's quantity and the start of its title up to (not including) the third space: a prefix of the title, followed in it by a space or nothing, with min(2, spaces) spaces |
| CartPage.LineControlsTargetTheirLine | src/features/cart/CartPage.jsx:83-112 | the -, + and remove controls of a line all act on that line's id, and with unique ids on no other line |
| CartPage.DecrementNeverBelowOne | src/features/cart/CartPage.jsx:83-84 | the - button asks for the same line and at least one unit; when enabled, for one fewer; it is disabled iff one fewer would be below one |
| CartPage.IncrementThenDecrement | src/features/cart/CartPage.jsx:83-97 | the + button asks for exactly one more unit of the same line, after which - is enabled and asks for the original quantity |
| CartPage.EmptyStateOrSummary | src/features/cart/CartPage.jsx:33-124 | exactly one of the empty state and the summary is shown; in the summary Clear Cart is enabled |
| CartHeader.PreviewItems | src/components/CartHeader.jsx:39 | the preview lists the first min(4, n) lines in cart order |
| CartHeader.PreviewPartitionsCart | src/components/CartHeader.jsx:60-62 | "+N more items" appears iff there are more than 4 lines, and listed plus hidden lines are the whole cart |
| CartHeader.PreviewLines | src/components/CartHeader.jsx:39-57 | each preview row shows its line's short title, price, quantity and price*quantity |
| CartHeader.BadgeIffDropdown | src/components/CartHeader.jsx:18-26 | when getCartCount() is the quantity total and each line holds a unit, the badge and the dropdown appear together |
| ProductCard.ProductQuantity | src/features/products/ProductCard.jsx:13 | the quantity of the first cart line with the product's id, or 0 when there is none |
| ProductCard.InCartIffPresent | src/features/products/ProductCard.jsx:13-76 | with at least one unit per line, the "{q} in cart" label is shown iff the cart has a line for the product |
| ProductCard.AddSuffixIffIdleAndPresent | src/features/products/ProductCard.jsx:85-95 | with at least one unit per line, the button's "(+q)" suffix is shown iff the tile is not adding and the cart has a line for the product; whenever it is shown, so is the label |
| ProductCard.CardState.constructor | src/features/products/ProductCard.jsx:8 | a tile starts idle with no add made |
| ProductCard.CardState.HandleAddToCart | src/features/products/ProductCard.jsx:15-21 | while adding, a click does nothing; otherwise it starts adding and calls addToCart(product) once; never more than one call between timer firings |
| ProductCard.CardState.TimerFired | src/features/products/ProductCard.jsx:20 | the timer returns the tile to idle, re-enabling both add buttons |

## Left out

- The cart store (`src/features/cart/CartContext.jsx`) is not part of this model: `addToCart`, `updateQuantity`, `removeFromCart`, `clearCart`, `getCartCount` and `getCartTotal` appear only as the calls the views make or as inputs.
- The product source (`useProducts`), the network fetch and the loading and error views (ProductList.jsx:10, 32-33): I/O.
- React's effect scheduling and re-render timing. Each effect is modelled as the event that triggers it. On first load both the sidebar's filter effect and the list's own effect set the filtered list; which one is seen depends on React running child effects before parent ones, so the model keeps the two events separate and does not fix their order.
- The 800 ms `setTimeout` delay: the timer is the explicit `TimerFired` event.
- ProductCard.CardState.HandleAddToCart: assumes each click sees the `isAdding` of the latest render; two clicks handled before a re-render (a stale closure) are not modelled.
- The random badge (ProductCard.jsx:9): nondeterministic and cosmetic.
- `toFixed` formatting and floating-point price arithmetic: prices are exact `real`s.
- Unicode case mapping: `toLowerCase` folds ASCII letters only.
- ProductCard.ProductQuantity: `|| 0` on a quantity that is `undefined` or `NaN` is not modelled; quantities are integers, for which `q || 0` is `q`.
- Router navigation (`navigate`, `Link`), CSS classes, the highlighted page button, hover state and layout.
- `src/main.jsx`, `src/App.jsx` (provider and route wiring) and `src/features/landing/LandingPage.jsx` (static markup).
- The `categoryCount` prop that ProductList passes to the sidebar, which the sidebar ignores.
- ProductList.CountCategories: the counts are a `map`, not a plain JavaScript object, so a category named like an inherited property (`constructor`, `toString`) or `__proto__` is not treated specially; the dictionary is never read, so nothing shown depends on it.
