# Shop cart and recommendations — a Dafny model

This project models the data layer of a small retail catalog assistant that
comes in two front ends: a Streamlit page (`app.py`) and a browser page
(`script.js`).

On the Streamlit side:

- the catalog is cleaned once: missing names, brands, categories and
  sub-categories get fixed defaults, a missing price becomes 0, and every row
  gets an 18% GST amount and a tax-inclusive final price;
- the "top trending products" are the `n` most-bought product names of the
  purchase log (`Counter.most_common`);
- the "related products" are the five most-bought names within the selected
  category, never the selected product itself;
- the session cart maps each product to a quantity and the price captured
  when it was first added; adding bumps the quantity or inserts an entry;
  the cart table shows line totals, and submitting reports the totals and
  empties the cart.

On the browser side:

- a fixed recommendation table pairs products with prices;
- the cart is an array of `{name, price, quantity}` with add (find or
  append), remove (filter) and a quantity update that never goes below 1;
- adding also bumps a running trending count;
- the total is the sum of price times quantity.

Modules, one per component:

- `Shop` (shop.dfy): the product-name type and an `Option`.
- `Catalog` (catalog.dfy): the default fills, the GST columns, and the
  first-match lookup of a final price.
- `Counting` (counting.dfy): Python's `Counter` as used here. `Tally` is the
  insertion-ordered counter, `Pop` is `counter.pop`, `SortByCount` is the
  stable sort by count, highest first, and `MostCommon` is `most_common(n)`.
  Ties are broken by first appearance.
- `Trending` (trending.dfy): `get_top_trending_products` and
  `predict_related_products`.
- `CartLines` (cart_lines.dfy): the cart contents shared by both front ends.
  A sequence holds one line per product in insertion order. A Python dict
  keeps insertion order, and the JavaScript array is ordered. The module also
  has the find-or-append, the filter, the quantity update and the totals.
- `SessionCart` (session_cart.dfy): the Streamlit session cart, as a class
  `Cart` whose methods update its `items` field.
- `BrowserCart` (browser_cart.dfy): the browser page state, as a class `Page`
  with the fields `selectedItems` and `trendingProducts`, plus the
  recommendation lookup.

Prices are exact reals, so there is no floating-point rounding. The purchase
log is a sequence of `(product name, category)` rows. The catalog is a
sequence of rows whose fields may be missing.

## Modelling decisions

- Adding an unknown product. `add_to_cart` indexes `values[0]` of an empty
  selection (app.py:82), and that raises before the cart is touched. The
  model returns `NotFound` and leaves the cart unchanged, so the state
  afterwards is the same as in the source. This also holds when the name is
  already in the cart, because the lookup comes before the membership test.
- Submitting an empty cart. The submit button is only drawn while the cart
  has entries (app.py:126, 139). The model's `SubmitOrder` on an empty cart
  returns `None` and changes nothing.
- Ties in the related products. They follow the first purchase within the
  selected category, because the counter is built from the category's rows
  only (app.py:99, 104). This can differ from the order of first purchase
  in the whole log.

## Model

| member | source | states |
|---|---|---|
| Catalog.FinalPrice | app.py:21-23 | the final price is the price times 118/100; it is at least the price when the price is not negative, and it is 0 exactly when the price is 0 |
| Catalog.Normalize | app.py:14-23 | a missing name, brand, category or sub-category becomes its fixed default, and a present one is kept; a missing price becomes 0 with final price 0; GST is 18% of the price, and the final price is price plus GST and at least the price when the price is not negative |
| Catalog.NormalizeIdempotent | app.py:14-23 | cleaning an already cleaned catalog again gives the same catalog |
| Catalog.LookupFinalPrice | app.py:82 | `None` exactly when no catalog row has the name; otherwise the final price of the first row with that name |
| Counting.TallyProducts | app.py:28 | `Counter(names)` holds exactly the names that occur, each once |
| Counting.TallyOrder | app.py:28 | the counter's entries are in order of first occurrence |
| Counting.TallyCounts | app.py:28 | each entry's count is the number of occurrences of its name, and is positive |
| Counting.Pop | app.py:105 | `counter.pop(x)` keeps exactly the entries whose product is not `x` and never grows the counter |
| Counting.PopKeepsOrder | app.py:105 | popping keeps the remaining entries in first-occurrence order |
| Counting.SortByCountRanked | app.py:29 | the sort inside `most_common` is a permutation of the counter, ordered by count, highest first, with equal counts in first-occurrence order (a stable sort) |
| Counting.SortByCountPermutes | app.py:29 | the sort inside `most_common` keeps exactly the counter's entries, each as often |
| Counting.MostCommonSpec | app.py:29 | `most_common(n)` returns min(n, size) entries of the counter (none for n <= 0), all from the counter, in ranked order |
| Counting.MostCommonLeftOut | app.py:29 | an entry that `most_common(n)` leaves out ranks after every entry it returns, and something is left out only when n entries are returned |
| Trending.CategoryCount | app.py:99-104 | a name occurs in the category's product names once for each log row with that name and that category |
| Trending.TopTrendingSpec | app.py:26-29 | at most n pairs, none for an empty log; each pair is a bought product with its purchase count; no product twice |
| Trending.TopTrendingOrder | app.py:26-29 | counts never increase down the list, and equal counts follow first purchase |
| Trending.TopTrendingLeftOut | app.py:26-29 | a bought product is left out only when n pairs are shown, each ranking before it: a higher count, or the same count and an earlier first purchase |
| Trending.TallyExample | app.py:28 | counting the log X, Y, X, Z, X, Y gives (X, 3), (Y, 2), (Z, 1) in that order |
| Trending.TopTrendingExample | app.py:26-29 | the log X, Y, X, Z, X, Y with n = 2 gives [(X, 3), (Y, 2)] |
| Trending.RelatedCounterOrder | app.py:99-105 | the counter that is ranked lists products in order of first purchase in the category |
| Trending.RelatedCounterEntries | app.py:99-105 | every entry of that counter is a product other than the selected one, bought in the category, with the number of such log rows as its count |
| Trending.RelatedCounterComplete | app.py:99-105 | every product bought in the category, other than the selected one, has an entry in that counter |
| Trending.RelatedProductsSpec | app.py:97-107 | at most 5 pairs; never the selected product; each product was bought in the selected category, and its count is the number of such log rows; no product twice; an empty list when the category has no purchases |
| Trending.RelatedProductsRanked | app.py:97-107 | counts never increase down the list, and equal counts follow first purchase in the category; a product of the category other than the selected one is left out only when 5 are shown, each ranking before it: bought more often in the category, or as often and first bought earlier in the category |
| CartLines.Find | script.js:29 | the position of the first line with the name, or the cart length when there is none |
| CartLines.AddOne | app.py:84-87 | an existing line gets one more unit and keeps its price and its place, and every other line is unchanged; otherwise a line with quantity 1 at the given price is appended; one line per product and quantities of at least 1 are kept |
| CartLines.AddOneTotals | app.py:127-136 | one add raises the item count by 1 and the total price by one unit price: the stored price for an existing line, the given price for a new one |
| CartLines.AddOneQuantity | app.py:84-87 | one add raises the added product's quantity by exactly 1 and leaves every other product's quantity unchanged |
| CartLines.Without | script.js:39 | removing an absent name changes nothing |
| CartLines.WithoutDropsName | script.js:39 | after removal no line has the removed name |
| CartLines.WithoutCutsLine | script.js:39 | in a cart with one line per product, removal cuts out exactly that product's line and keeps the other lines in order with their values |
| CartLines.WithoutValid | script.js:39 | removal keeps one line per product and quantities of at least 1 |
| CartLines.WithoutTotals | script.js:39-50 | removal lowers the item count by the removed quantity and the total by the removed line's total |
| CartLines.TotalPriceNonNegative | script.js:50 | with quantities of at least 1 and prices that are not negative, the total is not negative |
| CartLines.SetQuantity | script.js:64-70 | only the named line's quantity changes, to the new value; names, prices and the other lines stay; an absent name changes nothing; a new quantity of at least 1 keeps the cart invariant |
| SessionCart.SnapshotTotals | app.py:127-136 | the Quantity and Total column sums of the cart table are the number of units and the sum of quantity times unit price over the cart (0 and 0 for an empty cart) |
| SessionCart.AddedAllQuantities | app.py:81-87 | after any sequence of adds to an empty cart, each catalog product has as many units as it was added, a name missing from the catalog has none, and every entry is unique with quantity at least 1 |
| SessionCart.Cart.constructor | app.py:68-69 | a session starts with an empty cart |
| SessionCart.Cart.AddToCart | app.py:81-87 | a name missing from the catalog gives `NotFound` and leaves the cart unchanged; otherwise the cart becomes `AddOne` of the old cart at the first matching row's final price; the cart invariant is kept |
| SessionCart.Cart.SubmitOrder | app.py:126-145 | a non-empty cart reports the column totals of its table and becomes empty; an empty cart reports nothing and stays empty |
| BrowserCart.LoadRecommendations | script.js:1-16 | a product in the table gets its i-th product paired with its i-th price, in table order; any other name that is not a property of `Object.prototype` gets nothing |
| BrowserCart.Bumped | script.js:32 | the added item's count becomes its old count, or 0 if it had none, plus 1; every other count is unchanged |
| BrowserCart.BumpAllCounts | script.js:32 | after a sequence of adds, each product's trending count has grown by the number of times it was added |
| BrowserCart.NewQuantity | script.js:67 | the new quantity is at least 1; a positive parsed number is taken as it is; no number, zero or a negative number gives 1 |
| BrowserCart.Page.constructor | script.js:6-7 | the page starts with an empty cart and the fixed initial trending counts |
| BrowserCart.Page.AddToCart | script.js:28-35 | the cart becomes `AddOne` of the old cart (find or append) and the trending counts become `Bumped` of the old counts; the cart invariant is kept |
| BrowserCart.Page.RemoveFromCart | script.js:38-41 | the cart becomes the old cart without the named line; trending counts are unchanged; the cart invariant is kept |
| BrowserCart.Page.UpdateQuantity | script.js:64-70 | the named line's quantity becomes `NewQuantity` of the input, and an absent name changes nothing; trending counts are unchanged; the cart invariant is kept |
| BrowserCart.Page.CartTotal | script.js:50 | the displayed total is 0 for an empty cart and not negative when no price is negative |

## Left out

- User interface: Streamlit widgets, layout, buttons, select boxes and the
  choice lists behind them (app.py:32-66, 71-77, 93-94, 109-122, 132,
  139-142). Also left out: the DOM lookups and HTML building of script.js
  (`createRecommendationHTML`, `createCartItemHTML`, the `innerHTML`
  assignments) and the empty-state texts.
- Charts: Plotly in app.py, and the Chart.js chart with `updateTrendingChart`
  in script.js. They only render data the model computes.
- CSV loading (app.py:10-11): this is file I/O. The catalog and the purchase
  log are given as sequences.
- Floating-point prices and the two-decimal rounding of the displayed total
  (app.py:142): prices are exact reals.
- `parseInt`: it is abstracted to an optional integer that `updateQuantity`
  receives.
- The Streamlit rerun-per-event control flow and session storage: the
  session cart is an object, and each event is one method call.
- BrowserCart.LoadRecommendations: it relies on every table entry having as
  many prices as products, which holds for the fixed table. The `undefined`
  price that a shorter price list would give in JavaScript is not modelled.
  The table is modelled as a map, so only its own keys are found. In
  JavaScript, `recommendations[product]` also finds the properties that
  every object inherits from `Object.prototype` (`"constructor"`,
  `"toString"`, `"valueOf"`, `"__proto__"` and the like). For those names
  `.products` is `undefined`, and the `.map` at script.js:14 throws a
  `TypeError`, so the list is not redrawn. The model treats such names as
  absent and returns no suggestions.
- BrowserCart.Bumped: JavaScript's `|| 0` also replaces a count of 0 or NaN.
  That gives the same result for the numeric counts the page keeps, and NaN
  is not modelled. The counts are modelled as a map, so a name that is a
  property of `Object.prototype` is not looked up there (in JavaScript,
  `trendingProducts["constructor"] + 1` would concatenate strings). Added
  items come only from the recommendation table, whose product names are
  not such properties.
- The `n` of `get_top_trending_products` defaults to 5 at its only call site
  (app.py:34); the model takes `n` as a parameter.
