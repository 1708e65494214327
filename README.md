# Storefront cart and product listing, in Dafny

A verified model of the two pieces of logic in a small React storefront:

- the **cart store** (`useCart`): an ordered list of line items (`CartItem`:
  id, name, price, image URL, quantity) that is replaced wholesale by four
  operations: add a product, remove a product, update a quantity, clear. A
  summary (subtotal, 8% tax, total, item count) is derived from the list.
- the **product listing** (`ProductShowcase`): the products that match a
  category filter and a case-insensitive search, sorted by price or by id on
  request, and the wishlist of product ids that a heart button toggles.

Files:

- `wrappers.dfy` — `Option`.
- `sequences.dfy` — `IsSubsequence` ("kept in original order").
- `catalog.dfy` — the `Product` record, with the price in integer cents.
- `money.dfy` — rounding to the cent (a half upward), `toFixed(2)` on an exact
  amount, and the two-decimal price string with its parser.
- `cart.dfy` — `CartItem`, the list operations as pure functions, their
  lemmas, the summary, and the class `CartStore` whose field `items` the
  methods `AddToCart`, `RemoveFromCart`, `UpdateQuantity` and `ClearCart`
  replace. `CartStore.Valid()` (ids unique, quantities at least 1) is the
  store's invariant; it holds of the empty cart and every method keeps it,
  and `ReplayWellFormed` states the same for any sequence of requests.
- `showcase.dfy` — the match predicate, `FilterProducts`, an in-place
  insertion sort on an `array<Product>` standing for `filtered.sort(...)`,
  `FilteredAndSorted`, and the class `Wishlist`.

Money is exact. A price is a `nat` number of cents. The summary computes the
subtotal s in cents, the tax as 8% of the unrounded subtotal and the total as
the unrounded subtotal plus the unrounded tax, and rounds each of the three
independently to two decimals (in ten-thousandths of a dollar these are
100 s, 8 s and 108 s), in the order of use-cart.tsx:54-64. Because the
subtotal is already a whole number of cents, rounding it changes nothing, and
the rounded total always equals the rounded subtotal plus the rounded tax
(`RoundShift`, `SummaryStrings`).

## Model

| member | source | states |
|---|---|---|
| `Money.RoundHundredth` | use-cart.tsx:62-64 | the result is the nearest integer to n/100, a half going up: 100 r <= n + 50 < 100 r + 100 |
| `Money.RoundWhole` | use-cart.tsx:62 | a subtotal that is a whole number of cents is unchanged by rounding to the cent |
| `Money.RoundShift` | use-cart.tsx:58-64 | rounding 108% of s cents gives s plus the rounded 8%, so the rounded total equals the rounded subtotal plus the rounded tax |
| `Money.NatToDecimal` | use-cart.tsx:62-64 | the integer part of a formatted amount is a non-empty digit string with no leading zero |
| `Money.DecimalRoundTrip` | use-cart.tsx:62-64 | reading back the digits of n gives n |
| `Money.CentsToString` | use-cart.tsx:62-64 | the two-decimal string of c cents: at least four characters, a digit first, digits before the point and exactly two digits after it |
| `Money.ToFixed2` | use-cart.tsx:62-64 | toFixed(2) of an exact amount: at least "0.00" long, and it starts with "-" exactly when the amount is negative |
| `Money.ParseCents` | use-cart.tsx:55 | a price string is read only when it has the "digits.dd" shape: a point three characters from the end |
| `Money.ToFixed2Parses` | use-cart.tsx:62-64 | toFixed(2) of an exact amount: for a non-negative amount the string parses back to the amount rounded to the cent; for a negative one it is "-" followed by the rounded magnitude |
| `Money.CentsRoundTrip` | use-cart.tsx:55 | parsing the two-decimal string of c cents, as parseFloat reads a price, gives back c |
| `Cart.IncrementQuantity` | use-cart.tsx:13-17 | the map keeps the length of the list |
| `Cart.IncrementAt` | use-cart.tsx:13-17 | position k holds the old item with quantity + 1 when its id matches, the old item unchanged otherwise |
| `Cart.AddItem` | use-cart.tsx:8-27 | the cart keeps its length when the id is present and grows by one when it is absent |
| `Cart.AddExisting` | use-cart.tsx:10-17 | for an id already in the cart only that line's quantity rises by 1; its name, price and image stay; other lines, length and order are unchanged |
| `Cart.AddNew` | use-cart.tsx:20-26 | for a new id exactly one line is appended at the end, with id, name, price and image of the product and quantity 1 |
| `Cart.RemoveItem` | use-cart.tsx:30-32 | every item whose id differs is kept as many times as it occurs, every item with the id is dropped, and the kept items stand in their original order (a subsequence) |
| `Cart.RemoveAbsent` | use-cart.tsx:31 | removing an id that is absent leaves the cart unchanged |
| `Cart.SetQuantity` | use-cart.tsx:41-45 | the map keeps the length of the list |
| `Cart.SetQuantityAt` | use-cart.tsx:41-45 | position k holds the old item with quantity q when its id matches, the old item unchanged otherwise |
| `Cart.UpdateItemQuantity` | use-cart.tsx:34-47 | with q <= 0 no line with the id is left and the rest keep their order; with q > 0 the length stays and every line with the id has quantity q |
| `Cart.UpdateNonPositiveRemoves` | use-cart.tsx:35-38 | a quantity of zero or less gives exactly the result of removing the id |
| `Cart.UpdatePositive` | use-cart.tsx:40-46 | a positive quantity sets only the matching line's quantity; length, order and all other fields stay |
| `Cart.UpdateAbsent` | use-cart.tsx:34-47 | updating an id that is absent changes nothing, whatever the quantity |
| `Cart.AddItemWellFormed` | use-cart.tsx:8-27 | adding keeps ids unique and quantities at least 1 |
| `Cart.RemoveItemWellFormed` | use-cart.tsx:30-32 | removing keeps ids unique and quantities at least 1 |
| `Cart.UpdateItemQuantityWellFormed` | use-cart.tsx:34-47 | updating keeps ids unique and quantities at least 1, a non-positive quantity included |
| `Cart.WellFormedCons` | use-cart.tsx:6 | the invariant holds of a list with a head iff the head has quantity at least 1 and its id is not in the well-formed rest |
| `Cart.ReplayWellFormed` | use-cart.tsx:6-51 | from the empty cart, any sequence of add, remove, update and clear requests leaves ids unique and quantities at least 1 |
| `Cart.AddRepeatedly` | use-cart.tsx:6-27 | adding one product n times to the empty cart gives one line with quantity n |
| `Cart.AddTwo` | use-cart.tsx:20-26 | adding two products with different ids gives two lines in the order of the calls |
| `Cart.Subtotal` | use-cart.tsx:54-57 | the sum of price times quantity over the lines; it is not negative when no quantity is |
| `Cart.ItemCount` | use-cart.tsx:65 | the sum of the quantities; at least the number of lines when every quantity is at least 1 |
| `Cart.TaxCents` | use-cart.tsx:58 | the tax on s cents is 8% of s rounded to the nearest cent, a half upward |
| `Cart.Summarize` | use-cart.tsx:53-66 | item count is the sum of quantities; for a non-negative subtotal the three strings are the subtotal, its unrounded 8% tax rounded, and subtotal plus that rounded tax, each in two decimals |
| `Cart.SummaryStrings` | use-cart.tsx:58-64 | for s >= 0 the strings of the exact subtotal, tax and total are those of s, of its rounded tax, and of s plus that tax |
| `Cart.WellFormedTotals` | use-cart.tsx:54-65 | in a well-formed cart the subtotal is not negative and the item count is at least the number of lines |
| `Cart.TotalsAppend` | use-cart.tsx:54-65 | appending a line adds its price times quantity to the subtotal and its quantity to the count |
| `Cart.IncrementAbsent` | use-cart.tsx:13-17 | incrementing an id no line has changes nothing |
| `Cart.IncrementTotals` | use-cart.tsx:13-17 | with unique ids, incrementing line k adds its unit price to the subtotal and 1 to the count |
| `Cart.AddItemTotals` | use-cart.tsx:8-27 | adding a product adds 1 to the count and one unit price to the subtotal: the cart's existing price for a present id, the product's price for a new one |
| `Cart.EmptySummary` | use-cart.tsx:49-66 | the cleared cart shows "0.00", "0.00", "0.00" and 0 items |
| `Cart.ExampleSummary` | use-cart.tsx:53-66 | [10.00 x 2, 5.50 x 1] shows 25.50, 2.04, 27.54 and 3 items |
| `Cart.CartStore.constructor` | use-cart.tsx:6 | the store starts with the empty cart, which satisfies the invariant |
| `Cart.CartStore.AddToCart` | use-cart.tsx:8-28 | the new list is AddItem of the old one and the invariant is kept |
| `Cart.CartStore.RemoveFromCart` | use-cart.tsx:30-32 | the new list is RemoveItem of the old one and the invariant is kept |
| `Cart.CartStore.UpdateQuantity` | use-cart.tsx:34-47 | the new list is UpdateItemQuantity of the old one (a removal when q <= 0) and the invariant is kept |
| `Cart.CartStore.ClearCart` | use-cart.tsx:49-51 | the new list is empty |
| `Cart.CartStore.Summary` | use-cart.tsx:53-67 | the count is the sum of the quantities of the current lines; in a valid store the subtotal is not negative and the strings are those of the subtotal, its rounded 8% tax and their sum |
| `Showcase.Lower` | product-showcase.tsx:29-30 | lower-casing keeps the length of the string |
| `Showcase.Includes` | product-showcase.tsx:29-30 | `includes`: the empty query occurs in every string, and a query longer than the string never does |
| `Showcase.IncludesAt` | product-showcase.tsx:29-30 | `includes` holds iff the query occurs at some index of the string |
| `Showcase.MatchesCategory` | product-showcase.tsx:27 | "all" matches every product; any other filter matches exactly the products of that category |
| `Showcase.MatchesSearch` | product-showcase.tsx:28-30 | the query is empty, or the lower-cased query occurs at some index of the lower-cased name or of the lower-cased description |
| `Showcase.Matches` | product-showcase.tsx:26-33 | "all" with an empty query matches everything; under any other filter a match has that category |
| `Showcase.FilterProducts` | product-showcase.tsx:26-33 | a product is in the result iff it is in the input and matches; a matching product is kept as many times as it occurs and a non-matching one not at all; the result is a subsequence of the input, so kept products stay in catalog order |
| `Showcase.FilterKeepsAll` | product-showcase.tsx:27-28 | with filter "all" and an empty query every product is kept, in order |
| `Showcase.SortOrderOf` | product-showcase.tsx:36-48 | exactly "price-low", "price-high" and "newest" select an order; every other key keeps catalog order |
| `Showcase.Compare` | product-showcase.tsx:38-44 | the three comparators (price minus price, the reverse, id difference newest first) are each the difference of one integer key, so they order consistently |
| `Showcase.GoesAfter` | product-showcase.tsx:38-44 | the sort exchanges two neighbours exactly when the comparator is positive, that is when the first has the larger key |
| `Showcase.SortedMeaning` | product-showcase.tsx:37-45 | sorted for price-low iff prices are non-decreasing, for price-high iff non-increasing, for newest iff ids are non-increasing |
| `Showcase.NewestStrict` | product-showcase.tsx:43-45 | newest first over distinct ids gives strictly decreasing ids |
| `Showcase.Swap` | product-showcase.tsx:38 | exchanging two elements changes only those two positions and keeps the multiset |
| `Showcase.SortInPlace` | product-showcase.tsx:38-44 | the array ends with no pair in the wrong order for the comparator and is a permutation of the array it started as |
| `Showcase.FilteredAndSorted` | product-showcase.tsx:25-52 | the result is a permutation of the filtered list, sorted when the key names an order, and equal to the filtered list (original order) otherwise |
| `Showcase.ShownIffMatches` | product-showcase.tsx:25-52 | any permutation of the filtered list holds exactly the matching products |
| `Showcase.Toggled` | product-showcase.tsx:62-79 | the id is in the result iff it was not in the set; every other id keeps its membership |
| `Showcase.ToggleTwice` | product-showcase.tsx:62-79 | toggling one id twice restores the set |
| `Showcase.Wishlist.constructor` | product-showcase.tsx:18 | the wishlist starts empty |
| `Showcase.Wishlist.Toggle` | product-showcase.tsx:63-79 | the new set is the old one with the id's membership flipped |

## Left out

- Rendering and layout (every JSX part, the pages about.tsx and hero.tsx): no logic.
- Fetching the product list and posting orders, contact messages and newsletter
  sign-ups: they go through an HTTP client whose code is not part of this model;
  the product list is a parameter of `FilteredAndSorted`.
- Toast notifications (including the ones `toggleWishlist` raises) and scrolling
  to page sections: user-interface effects with no state in the model.
- IEEE-754 floating point: `parseFloat` and `toFixed` are modelled on exact
  decimal values, so their binary rounding errors (a price times a quantity
  that is not exactly representable) are not modelled; nor is `toFixed`'s
  exponent notation for amounts of 10^21 and more.
- `Money.ParseCents`: returns `None` for strings other than canonical
  "digits.dd" ones, so the other strings `parseFloat` accepts ("5", "5.5",
  " 5.50") are not read; `Money.CentsRoundTrip` is stated for the canonical
  shape only.
- The star rating `Math.floor(parseFloat(rating))`: display only, floating point.
- Form field bookkeeping, form resets and the JSON payload of an order: glue
  around the HTTP call.
- Opening and closing modals, the 409 check on newsletter sign-up, and the
  setters of the category filter and sort key: user-interface glue.
- `Showcase.SortInPlace`: the language's sort is stable, so products with
  equal prices (or ids) keep their catalog order; the model states
  sortedness and permutation only, not where equal keys end up.
- `Showcase.Lower`: lower-cases the ASCII letters only, where `toLowerCase`
  follows Unicode case mapping.
- `Cart.Summarize`: states the display strings for a non-negative subtotal,
  which `WellFormedTotals` shows always holds in a well-formed cart; the sign
  handling of a negative subtotal is in the body but is not restated.
- Product fields that the filter, the sort and the cart do not read (stock
  flag, rating, original price; the rendered card reads them) are not in
  `Product`; prices are non-negative whole
  cents and quantities are integers (the code takes any number).
- The memoisation of the summary and the callbacks (`useMemo`, `useCallback`)
  is not modelled: `Summarize` is a pure function of the list, so two reads
  without a change in between agree by construction.
- The `CartStore` methods require the invariant `Valid()`, which the
  constructor establishes and every method keeps. The list functions are
  defined on any list; the invariant lemmas (`AddItemWellFormed`,
  `RemoveItemWellFormed`, `UpdateItemQuantityWellFormed`, `WellFormedTotals`)
  assume `WellFormed`, and `IncrementTotals` and `AddItemTotals` assume unique
  ids, which every reachable cart has (`ReplayWellFormed`). On a list with two
  lines of one id, adding that product raises every matching line, so the item
  count grows by more than one.
