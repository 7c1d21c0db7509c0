# Atelier storefront: cart store, product listing and checkout rules in Dafny

This project models the logic of the "Atelier" storefront, a Next.js
application. It covers three parts:

- **The cart and wishlist store** (`src/lib/store-context.tsx`). `StoreProvider`
  holds `cart`, a list of cart lines, and `wishlist`, a list of product ids.
  `addToCart`, `removeFromCart`, `updateQuantity` and `toggleWishlist` replace
  these lists. `cartTotal` and `cartCount` are computed from the lines.
- **The product listing page** (`src/app/products/page.tsx`). `filteredProducts`
  narrows the catalog by search text, selected categories, price range and the
  `filter` URL parameter (`sale` or `new`), then sorts or reverses the result.
  The page also has `categories`, `toggleCategory`, `clearFilters` and
  `activeFiltersCount`.
- **The checkout page** (`src/app/checkout/page.tsx`). It computes shipping,
  tax and total. It runs a four-step form (Information, Shipping, Payment,
  Review) with step indicators, Continue and Back buttons, and an
  `orderPlaced` flag. The Review step shows the last four characters of the
  card number.

Modules, one per source file plus three helpers:

- `Store` (`store.dfy`) holds the `Product` and `CartItem` datatypes, the
  eight-product catalog and the pure cart transformations: `AddLine`,
  `RemoveLines`, `SetQuantity`, `Total` and `Count`. Its class
  `StoreProvider` has `cart` and `wishlist` fields, and each method assigns
  one transformation's result, as the source's `setCart` / `setWishlist`
  updaters do. `Valid()` says that no two lines share an (id, size, colour)
  triple and that the wishlist has no duplicates.
- `ProductListing` (`listing.dfy`) holds the filter predicates and
  `Selection`, the catalog products that every active filter admits, in
  catalog order. `NarrowCatalog` reassigns a local `filtered` stage by stage,
  as the source does. `OrderListing` copies the result into an array and
  sorts it in place with an insertion sort, or reverses it in place.
  `ProductsPage` is a class holding the page's filter state.
- `Checkout` (`checkout.dfy`) holds the pricing functions, the card suffix, the
  view selection and the click handlers as the transition function `OnClick`.
  `CheckoutPage` holds `step` and `orderPlaced` over a shared `StoreProvider`.
- `Seqs` (`seqs.dfy`) holds the sequence operations used by more than one
  module: `filter`, the add-or-remove toggle on a list, de-duplication in
  first-appearance order, and reversal.
- `Wrappers` (`wrappers.dfy`) holds `Option`, for optional properties and
  parameters.
- `Scenarios` (`scenarios.dfy`) holds worked examples over the catalog's own
  overcoat record: the cart that `addToCart` builds and the order summary the
  checkout page shows for it.

Representation choices:

- Prices, ratings, shipping, tax and totals are Dafny `real`, which is exact.
  So 9.99 and 8% carry no floating-point error.
- A line's contribution to `cartTotal` is `LineTotal(price, quantity)`,
  written as repeated addition of the price. `LineTotalIsProduct` proves that
  it equals price × quantity. Sums of line totals then stay linear
  arithmetic for the verifier.
- The catalog is `Catalog()`, one function per product, with every field of
  the eight source records. The listing functions take the catalog as a
  parameter, as the page copies the imported `products` array.
  `OvercoatPrice` and the `Scenarios` lemmas use the overcoat record itself.
- Quantities are `int`. `addToCart` does not reject a quantity of zero or
  less, so the model doesn't either. Positivity of every line's quantity is
  proved to be kept only when the added quantity is positive.
- Size and colour selectors are `Option<string>`. An add without a size
  matches only lines without a size, as `===` on `undefined` does.
- `removeFromCart` and `updateQuantity` act on every line with the product
  id, whatever its size or colour. The model keeps this behaviour.
  `LineButtonsActOnEveryVariant` shows what it means for the checkout
  summary's +/− buttons: they act on all variants of the product, not only on
  the line that was clicked.
- Toggling a wishlist id that sits in the middle of the list and then toggling
  it again moves it to the end (`ToggleTwicePresent`).
- `activeFiltersCount` counts the price slider as active when
  `priceRange[0] > 0 || priceRange[1] < 600`. A range that is only widened,
  such as 0..700, does not count. `clearFilters` leaves the `filter` URL
  parameter in force (`ClearedAdmits`).
- With standard shipping the total is not monotone in the subtotal. A
  199 cart costs more than a 200 cart (`TotalDropsAtThreshold`).
- The load at `src/lib/store-context.tsx:187-192` has no error handling: a
  corrupt stored value makes `JSON.parse` throw. Persistence is left out (see
  below).

## Model

| member | source | states |
|---|---|---|
| `Store.AddLine` | src/lib/store-context.tsx:202-221 | `addToCart`'s updater: merge into the line with the same (id, size, colour), or append a new line. No contract of its own; `AddMergesIntoExisting`, `AddAppendsNew`, `AddIsReplace`, `AddKeepsUniqueKeys`, `AddKeepsPositive`, `AddRaisesCount` and `AddRaisesTotal` state what it does. |
| `Store.AddMergesIntoExisting` | src/lib/store-context.tsx:204-217 | With a line already matching (id, size, colour), the cart keeps its length, that line gains `quantity` and every other line is unchanged. |
| `Store.AddAppendsNew` | src/lib/store-context.tsx:219 | With no matching line, the old cart is kept as a prefix and exactly one line carrying the product, quantity, size and colour is appended. |
| `Store.AddKeepsUniqueKeys` | src/lib/store-context.tsx:204-219 | Adding never makes two lines with the same (id, size, colour) triple. |
| `Store.AddKeepsPositive` | src/lib/store-context.tsx:202-219 | Adding a positive quantity keeps every line's quantity positive. |
| `Store.AddTwiceSameSelectors` | src/lib/store-context.tsx:204-219 | Adding a product twice with the same selectors gives one new line of quantity q1 + q2. |
| `Store.AddTwiceOtherSelectors` | src/lib/store-context.tsx:204-219 | Adding a product twice with different selectors gives two new lines, in call order. |
| `Store.Total` | src/lib/store-context.tsx:245 | `cartTotal`, the left fold of price × quantity. No contract of its own; `TotalAppend`, `TotalReplace`, `LineTotalIsProduct` and `AddRaisesTotal` state what it computes. |
| `Store.Count` | src/lib/store-context.tsx:246 | `cartCount`, the left fold of the quantities. No contract of its own; `CountAppend`, `CountReplace` and `AddRaisesCount` state what it computes. |
| `Store.CountAppend` | src/lib/store-context.tsx:246 | `cartCount` of two concatenated carts is the sum of their counts. |
| `Store.TotalAppend` | src/lib/store-context.tsx:245 | `cartTotal` of two concatenated carts is the sum of their totals. |
| `Store.CountReplace` | src/lib/store-context.tsx:246 | Replacing one line changes `cartCount` by the difference of the two quantities. |
| `Store.TotalReplace` | src/lib/store-context.tsx:245 | Replacing one line changes `cartTotal` by the difference of the two lines' price × quantity. |
| `Store.AddIsReplace` | src/lib/store-context.tsx:210-217 | With a line matching (id, size, colour), adding is the same as replacing that line by itself with `quantity` more. |
| `Store.AddRaisesCount` | src/lib/store-context.tsx:246 | `addToCart(product, q)` raises `cartCount` by exactly q, whether it merges or appends. |
| `Store.LineTotal` | src/lib/store-context.tsx:245 | One line's `item.price * item.quantity`, as repeated addition. No contract of its own; `LineTotalIsProduct` proves it equals price × quantity and `LineTotalAdd` that it is additive in the quantity. |
| `Store.LineTotalIsProduct` | src/lib/store-context.tsx:245 | A line's contribution `LineTotal(price, quantity)` equals price × quantity, for every integer quantity. |
| `Store.LineTotalAdd` | src/lib/store-context.tsx:245 | A line's contribution is additive in the quantity: the total of q1 + q2 units is the total of q1 plus the total of q2. |
| `Store.AddRaisesTotal` | src/lib/store-context.tsx:245 | When the cart's lines of that id carry the product's price, `addToCart(product, q)` raises `cartTotal` by price × q (`LineTotal(price, q)`). |
| `Store.RemoveLines` | src/lib/store-context.tsx:223-225 | The remaining lines are exactly the old lines whose product id differs, whatever their size or colour. |
| `Store.RemoveAbsentIsNoOp` | src/lib/store-context.tsx:224 | Removing an id that has no line returns the cart unchanged. |
| `Store.RemoveIdempotent` | src/lib/store-context.tsx:224 | Removing the same id twice is the same as removing it once. |
| `Store.RemoveKeepsOrder` | src/lib/store-context.tsx:224 | Removal distributes over concatenation, so the kept lines keep their relative order. |
| `Store.RemoveKeepsUniqueKeys` | src/lib/store-context.tsx:224 | Removal keeps the (id, size, colour) triples distinct. |
| `Store.RemoveKeepsPositive` | src/lib/store-context.tsx:224 | Removal keeps every quantity positive. |
| `Store.SetQuantity` | src/lib/store-context.tsx:227-235 | `updateQuantity`'s updater. No contract of its own; `UpdateNonPositiveIsRemove`, `UpdatePositiveSetsEveryVariant`, `UpdateKeepsUniqueKeys` and `UpdateKeepsPositive` state what it does. |
| `Store.UpdateNonPositiveIsRemove` | src/lib/store-context.tsx:228-231 | `updateQuantity(id, q)` with q ≤ 0 gives exactly `removeFromCart(id)`. |
| `Store.UpdatePositiveSetsEveryVariant` | src/lib/store-context.tsx:232-234 | With q > 0: same length and order, same keys and products, every line of the id has quantity q, every other line unchanged. |
| `Store.UpdateKeepsUniqueKeys` | src/lib/store-context.tsx:227-235 | `updateQuantity` keeps the (id, size, colour) triples distinct. |
| `Store.UpdateKeepsPositive` | src/lib/store-context.tsx:227-235 | Whatever quantity is passed, no line is left with quantity ≤ 0. |
| `Store.Catalog` | src/lib/store-context.tsx:40-181 | The `products` array: the eight records below, in source order. Data; the listing lemmas take any catalog. |
| `Store.MerinoWoolOvercoat` | src/lib/store-context.tsx:41-59 | Record 1, every field as in the source; `OvercoatPrice` and the `Scenarios` lemmas use it. |
| `Store.CashmereTurtleneck` | src/lib/store-context.tsx:60-77 | Record 2, every field as in the source. Data only. |
| `Store.TailoredWoolTrousers` | src/lib/store-context.tsx:78-95 | Record 3, every field as in the source. Data only. |
| `Store.SilkBlendBlazer` | src/lib/store-context.tsx:96-112 | Record 4, every field as in the source. Data only. |
| `Store.CottonPoplinShirt` | src/lib/store-context.tsx:113-129 | Record 5, every field as in the source. Data only. |
| `Store.LeatherChelseaBoots` | src/lib/store-context.tsx:130-147 | Record 6, every field as in the source. Data only. |
| `Store.LinenSummerSuit` | src/lib/store-context.tsx:148-164 | Record 7, every field as in the source. Data only. |
| `Store.LeatherBelt` | src/lib/store-context.tsx:165-180 | Record 8, every field as in the source. Data only. |
| `Store.OvercoatPrice` | src/lib/store-context.tsx:41-45 | The catalog's first record, the Merino Wool Overcoat, costs 389. |
| `Store.OvercoatScenario` | src/lib/store-context.tsx:202-246 | A product priced 389, as the catalog's overcoat is, added ×1 (M, Charcoal): count 1, total 389. Then ×2 more: one line of 3, total 1167. Removing it empties the cart, total 0. |
| `Store.LineButtonsActOnEveryVariant` | src/app/checkout/page.tsx:536-543 | On one cart, an M line of 1 and an L line of 5 of the same product: the summary's + on the M line sets both lines to 2, and − on it removes both. The general fact is `UpdatePositiveSetsEveryVariant` with q = quantity + 1 and `UpdateNonPositiveIsRemove`. |
| `Store.StoreProvider.constructor` | src/lib/store-context.tsx:184-185 | The store starts with an empty cart and an empty wishlist, and its invariant holds. |
| `Store.StoreProvider.CartTotal` | src/lib/store-context.tsx:245 | `cartTotal` of the current cart, `Total(cart)`. `AddToCart`'s ensures states its change. |
| `Store.StoreProvider.CartCount` | src/lib/store-context.tsx:246 | `cartCount` of the current cart, `Count(cart)`. `AddToCart`'s ensures states its change. |
| `Store.StoreProvider.AddToCart` | src/lib/store-context.tsx:202-221 | Replaces the cart by `AddLine` (default quantity 1, no selectors), leaves the wishlist, keeps the invariant, raises the count by q and, when the cart's lines of that id carry the product's price, the total by price × q. |
| `Store.StoreProvider.RemoveFromCart` | src/lib/store-context.tsx:223-225 | Replaces the cart by `RemoveLines`, leaves the wishlist, keeps the invariant and positivity. |
| `Store.StoreProvider.UpdateQuantity` | src/lib/store-context.tsx:227-235 | Delegates to removal for q ≤ 0, otherwise replaces the cart by `SetQuantity`; keeps the invariant and positivity. |
| `Store.StoreProvider.ToggleWishlist` | src/lib/store-context.tsx:237-243 | Replaces the wishlist by its toggle, flips membership of the id, leaves the cart, keeps the list free of duplicates. |
| `Seqs.Filter` | src/lib/store-context.tsx:224 | `filter` keeps exactly the elements the predicate accepts and never lengthens the list. |
| `Seqs.Without` | src/lib/store-context.tsx:240 | The filtered list lacks the id and keeps membership of every other element. |
| `Seqs.Toggle` | src/lib/store-context.tsx:237-243 | The toggled element is present afterwards exactly when it was absent before; every other element's membership is unchanged. |
| `Seqs.ToggleKeepsNoDup` | src/lib/store-context.tsx:237-243 | Toggling never introduces a duplicate. |
| `Seqs.ToggleTwiceAbsent` | src/lib/store-context.tsx:237-243 | Toggling an absent element twice restores the exact original list. |
| `Seqs.ToggleTwicePresent` | src/lib/store-context.tsx:237-243 | Toggling a present element twice moves it to the end of the list. |
| `Seqs.Distinct` | src/app/products/page.tsx:230 | `[...new Set(xs)]` has no duplicates and the same members as `xs`. |
| `Seqs.DistinctFirstAppearance` | src/app/products/page.tsx:230 | The distinct elements are ordered by the index of their first occurrence. |
| `Seqs.Reversed` | src/app/products/page.tsx:270 | Reversal keeps the length and the multiset, and puts element i at position n − 1 − i. |
| `ProductListing.LowerChar` | src/app/products/page.tsx:238-239 | `toLowerCase` on one character: A–Z map to a–z, everything else is kept. `MatchesQuery` relies on it. |
| `ProductListing.Lower` | src/app/products/page.tsx:238-239 | `toLowerCase` on a string, character by character. `MatchesQuery` relies on it. |
| `ProductListing.Includes` | src/app/products/page.tsx:238-239 | `includes`: the query occurs at some index of the string. `MatchesQuery` relies on it. |
| `ProductListing.MatchesQuery` | src/app/products/page.tsx:236-241 | The name-or-category, lower-cased substring test. No contract of its own; `SearchStage` and `ListedIffAdmitted` use it as the search filter. |
| `ProductListing.OnSale` | src/app/products/page.tsx:251-253 | A truthy `originalPrice`: present and not zero. No contract of its own; `SaleStage` uses it. |
| `ProductListing.IsNewArrival` | src/app/products/page.tsx:255-257 | The tags include "New Arrival". No contract of its own; `NewStage` uses it. |
| `ProductListing.Admits` | src/app/products/page.tsx:235-257 | The conjunction of the five filters, each applying only when it is active. No contract of its own; `Selection`, the five stage lemmas and `ListedIffAdmitted` tie it to the filter chain. |
| `ProductListing.Selection` | src/app/products/page.tsx:233-257 | A product is selected exactly when it is in the catalog and passes every active filter. |
| `ProductListing.SearchStage` | src/app/products/page.tsx:235-241 | The search filter, applied only for a non-empty query, narrows the list by the case-insensitive name-or-category match. |
| `ProductListing.CategoryStage` | src/app/products/page.tsx:243-245 | The category filter, applied only when categories are selected, narrows by membership of the product's category. |
| `ProductListing.PriceStage` | src/app/products/page.tsx:247-249 | The price filter keeps `priceRange[0] ≤ price ≤ priceRange[1]`. |
| `ProductListing.SaleStage` | src/app/products/page.tsx:251-253 | With `filter=sale`, only products with a non-zero original price remain. |
| `ProductListing.NewStage` | src/app/products/page.tsx:255-257 | With `filter=new`, only products tagged "New Arrival" remain; after this stage the list is exactly `Selection`. |
| `ProductListing.Stage` | src/app/products/page.tsx:233-257 | Each filter stage, applied or skipped, takes the catalog filtered by the first k stages to the catalog filtered by the first k + 1. |
| `ProductListing.NarrowCatalog` | src/app/products/page.tsx:233-257 | Starting from a copy of the catalog and reassigning `filtered` to each filter's new list in turn yields exactly `Selection`, in catalog order. |
| `ProductListing.Key` | src/app/products/page.tsx:260-268 | The sort key the three comparators order by: price, negated price, negated rating. No contract of its own; `OrderListing` restates sortedness by key as the comparators' orders on price and rating. |
| `ProductListing.InsertAt` | src/app/products/page.tsx:259-268 | One insertion pass extends the sorted prefix by one element, permutes the array, and leaves every entry after the pass's index where it was. |
| `ProductListing.SortInPlace` | src/app/products/page.tsx:259-268 | `filtered.sort(cmp)` leaves the array sorted by the comparator's key and a permutation of its old contents. |
| `ProductListing.ReverseInPlace` | src/app/products/page.tsx:269-270 | `filtered.reverse()` leaves the array equal to the reverse of its old contents. |
| `ProductListing.OrderListing` | src/app/products/page.tsx:259-272 | The result is a permutation of the input: price-low gives non-decreasing price, price-high and rating non-increasing price and rating, newest the reverse, anything else the input unchanged. |
| `ProductListing.ListProducts` | src/app/products/page.tsx:232-275 | `filteredProducts` is a permutation of the admitted catalog products, ordered as `sortBy` asks. |
| `ProductListing.ListedIffAdmitted` | src/app/products/page.tsx:233-257 | A product is listed exactly when it is in the catalog and passes every active filter (soundness and completeness). |
| `ProductListing.CategoryColumn` | src/app/products/page.tsx:230 | `products.map((p) => p.category)`: the categories in catalog order. `Categories` and `CategoriesInFirstAppearanceOrder` are stated over it. |
| `ProductListing.Categories` | src/app/products/page.tsx:230 | Every catalog category appears once and nothing else appears. |
| `ProductListing.CategoriesInFirstAppearanceOrder` | src/app/products/page.tsx:230 | Categories come in the order of their first appearance in the catalog. |
| `ProductListing.ActiveFilters` | src/app/products/page.tsx:292-295 | At least the number of selected categories; zero exactly when the query is empty, no category is selected and the slider spans at least 0..600. |
| `ProductListing.Cleared` | src/app/products/page.tsx:285-290 | After `clearFilters` the active-filter count is 0, the sort is "featured" and the URL filter is unchanged. |
| `ProductListing.ClearedAdmits` | src/app/products/page.tsx:285-290 | After clearing, a product is admitted exactly when its price is within 0..600 and it passes the URL's sale/new filter. |
| `ProductListing.ProductsPage.constructor` | src/app/products/page.tsx:223-228 | Initial state: empty search, "featured", 0..600, and the `category` URL parameter as the only selection when it is non-empty. |
| `ProductListing.ProductsPage.ActiveFiltersCount` | src/app/products/page.tsx:292-295 | `activeFiltersCount` of the page's state, `ActiveFilters(Current())`. `ClearFilters` ensures it is 0 afterwards. |
| `ProductListing.ProductsPage.FilteredProducts` | src/app/products/page.tsx:232-275 | `filteredProducts` for the page's current state: a permutation of the catalog products that state admits, in the order `sortBy` asks. |
| `ProductListing.ProductsPage.ToggleCategory` | src/app/products/page.tsx:277-283 | Replaces the selection by its toggle, flips membership of the category, touches no other field, and keeps the selection free of duplicates. |
| `ProductListing.ProductsPage.ClearFilters` | src/app/products/page.tsx:285-290 | Resets the state to `Cleared` of the old state, so `activeFiltersCount` is 0. |
| `Checkout.ShippingCost` | src/app/checkout/page.tsx:55 | Express costs 15 whatever the subtotal. Standard is 0 exactly when the subtotal is at least 200 and 9.99 otherwise. Never negative. |
| `Checkout.Tax` | src/app/checkout/page.tsx:56 | Tax is 2/25 (8%) of the subtotal, and between 0 and the subtotal for a non-negative subtotal. |
| `Checkout.OrderTotal` | src/app/checkout/page.tsx:57 | Total minus subtotal and tax is the shipping cost, and for a non-negative subtotal the total is at least the subtotal. |
| `Checkout.FreeShippingShortfall` | src/app/checkout/page.tsx:587-589 | No hint from 200 on; below 200 the amount shown is strictly positive and brings the subtotal to exactly 200. |
| `Checkout.ShortfallMatchesStandardShipping` | src/app/checkout/page.tsx:337 | For standard shipping, the hint is absent exactly when the shipping line reads free. |
| `Checkout.TotalDropsAtThreshold` | src/app/checkout/page.tsx:55-57 | With standard shipping, a 199 subtotal costs more in total than a 200 subtotal. |
| `Checkout.SummaryAt1167` | src/app/checkout/page.tsx:55-57 | For a subtotal of 1167: free standard shipping, 93.36 tax, total 1260.36, or 1275.36 by express. |
| `Checkout.CardSuffix` | src/app/checkout/page.tsx:492 | "****" for an empty card number; otherwise the last min(4, length) characters of the number. |
| `Checkout.ViewFor` | src/app/checkout/page.tsx:67-84 | The empty-bag view shows exactly when the cart is empty and no order is placed; the confirmation shows exactly when the order is placed. |
| `Checkout.Shown` | src/app/checkout/page.tsx:135-507 | Which controls are on screen: in the form view, indicators 1–4 always, Continue on steps 1–3, Back on steps 2–4, Place Order on step 4. `OnClick`'s contract is stated relative to it. |
| `Checkout.OnClick` | src/app/checkout/page.tsx:63-507 | The step stays in 1..4. A shown indicator with a number below the current step moves the step to that number, and any other indicator click changes nothing. Continue and Back move to the adjacent step. A shown Place Order sets `orderPlaced` and changes nothing else. After the order is placed nothing changes. Only Place Order on step 4 with a non-empty cart sets the flag. |
| `Checkout.Run` | src/app/checkout/page.tsx:135-145 | A sequence of clicks, each handled by `OnClick` against the cart at that moment. No contract of its own; `RunKeepsStep`, `OrderCanBePlaced` and `PlacedIsFinal` state what it does. |
| `Checkout.RunKeepsStep` | src/app/checkout/page.tsx:138-507 | Over any sequence of clicks the step stays within 1..4. |
| `Checkout.OrderCanBePlaced` | src/app/checkout/page.tsx:310-507 | From step 1 with a non-empty bag, Continue three times and then Place Order reach step 4 with the order placed. |
| `Checkout.PlacedIsFinal` | src/app/checkout/page.tsx:63-65 | Once the order is placed, no sequence of clicks changes the state. |
| `Checkout.CheckoutPage.constructor` | src/app/checkout/page.tsx:33-36 | The page starts on step 1 with no order placed, so it shows the empty-bag view for an empty cart and the Information step otherwise. |
| `Checkout.CheckoutPage.CurrentView` | src/app/checkout/page.tsx:67-84 | The view for the page's state and the current cart, `ViewFor`. The constructor's ensures states it for the initial state. |
| `Checkout.CheckoutPage.Click` | src/app/checkout/page.tsx:135-145 | A click applies `OnClick` to the step and flag against the current cart, and keeps the step within 1..4. |
| `Scenarios.OvercoatSubtotal` | src/lib/store-context.tsx:202-245 | The catalog's overcoat added once and then twice more in M, Charcoal gives a cart total of 1167. |
| `Scenarios.OvercoatOrderSummary` | src/app/checkout/page.tsx:55-57 | For that cart the checkout shows free standard shipping, 93.36 tax and a total of 1260.36, or 1275.36 by express. |

## Left out

- Persistence to `localStorage` (the two `useEffect` load/save blocks) is
  browser I/O and is not modelled. The load parses with no error handling, so
  there is no recovery path to model.
- The React context plumbing (`createContext`, `useStore`, the provider's
  JSX), all rendering, animation and icons, the form fields other than the
  card number, and the setters bound directly to inputs (`setSearchQuery`,
  `setSortBy`, `setPriceRange`, `setShippingMethod`) are plain assignments or
  UI. They are not modelled.
- Display arithmetic: the discount badge percentage and every `toFixed`
  formatting call are floating-point display and are not modelled.
- The random order number on the confirmation view is not modelled.
- `toLowerCase` is modelled for the ASCII letters A–Z only. Full Unicode case
  mapping is not. Strings are sequences of Unicode scalar values, while
  JavaScript strings count UTF-16 code units, so `Checkout.CardSuffix`
  (`slice(-4)`) differs from the source on characters outside the Basic
  Multilingual Plane, such as emoji.
- `ProductListing.ProductsPage`: `filterParam` is a constant fixed at
  construction. In the application, Navbar links to `/products?filter=new`
  and `?filter=sale` change the URL parameter while the page stays mounted
  and its other state is kept. The model does not capture that change of the
  URL filter under a live page; every listing lemma holds for any `Criteria`.
- JavaScript numbers are modelled as exact `real` (prices, ratings, money) and
  `int` (quantities). Fractional quantities, NaN and rounding are not modelled.
- `ProductListing.SortInPlace`: does not state that the sort is stable (equal
  keys keep catalog order), which the JavaScript engine guarantees. The
  insertion sort is stable, but only sortedness and permutation are proved.
- `Store.AddRaisesTotal`: requires that the cart's lines of the product's id
  carry the product's current price. The catalog is static, and the gift-card
  page (`src/app/gift-cards/page.tsx:16-23`) adds products outside it whose id
  `gift-card-${amount}` fixes `price: parseFloat(amount)`, so this always
  holds in the application. Without it, a merged line adds its own stored
  price × q.
- `Store.StoreProvider.AddToCart`, `RemoveFromCart`, `UpdateQuantity`,
  `ToggleWishlist`: require the store invariant (distinct keys, no repeated
  wishlist id). The constructor establishes it and every action keeps it;
  only data loaded from storage could break it, and loading is not modelled.
- The wishlist and admin pages' single `filter` calls, and the other pages
  (static tables and informational text), are outside this model.
