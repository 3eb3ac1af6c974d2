# Storefront cart and order core, modelled in Dafny

This project models the client-side logic of a small storefront. The storefront
lists products from a remote catalog, lets a shopper search, sort and open them,
keeps a cart persisted in browser storage, and builds order requests for an
external order endpoint. The modelled parts are:

- **Cart store** (`CartSlice`): the line list and its four reducers. Every
  reducer writes through to one storage slot. `CartStore` is a class whose
  `cart` and `slot` fields the reducer methods update. Each method is proved
  against a function on the old list (`Added`, `Removed`, `QuantitySet`). The
  methods also prove that the slot then holds exactly the new cart, and that
  loading the slot back gives it again.
- **Order status** (`OrderSlice`): the `{loading, error, success}` record, its
  reducers, and the message a failed order request is rejected with.
- **Catalog store** (`ProductSlice`): the product list and selected product, the
  six reducers of the two fetch thunks, and the cache-first single-product
  lookup. What the GET returns is a parameter.
- **Cart page** (`CartPage`):
  - the quantity controls with their guard;
  - subtotal and total;
  - the three minimum-length form rules;
  - the order body (comma-joined ids and quantities, cash-on-delivery amount);
  - the submit path, which clears the cart and resets the form on success.
- **Single-product order form** (`OrderForm`): the `parseInt`-guarded quantity,
  the required-field check, the order body, and the reset after success.
- **Product grid** (`ProductGrid`): defaulting to a list, the case-insensitive
  search filter, the stable price sorts, and the `limit` slice.
- **Product details** (`ProductDetails`): the gallery list, its de-duplication
  by url (the first occurrence is kept), and the stock and fallback labels.
- **Discount display** (`Pricing`): the percentage badge and the struck-through
  price. The product card and the details view compute these the same way.
- **Product card** (`ProductCard`): the one-unit add-to-cart payload.
- **Navbar** (`Navbar`): the cart badge count and its visibility, and the mobile
  menu toggle.

JavaScript semantics are written out where they matter:

- `Num` is a number that may be NaN.
- `ParseInt` reads an optional sign and the leading decimal digits.
- `IntToString` is `Number.prototype.toString`.
- `Join` and `Split` are comma join and split.
- `Utf16Length` is a string's `length`, in UTF-16 code units.
- `RoundHalfUp` is `Math.round` of an exact quotient.
- Truthiness tests on strings and optional values are explicit.

Prices and quantities are unbounded integers.

Four behaviours of the code are easy to misread:

- `updateQuantity` in the store has no lower bound, so quantity 0 or a negative
  quantity is stored as given (`CartSlice.QuantitySet`). Only the cart page's
  handler and its disabled minus button keep quantities at 1 or more.
- Submitting an empty cart on the cart page returns after an error toast,
  without building a body or touching the store.
- A finished `fetchProducts.fulfilled` does not clear `error`. Only `pending`
  does, so after a whole fetch cycle the error is cleared.
- Whether a product is discounted depends on whether the discount text is
  non-empty, not on whether its value is non-zero.

## Model

| member | source | states |
|---|---|---|
| CartSlice.Parse | redux/features/cartSlice.ts:23 | `JSON.parse` succeeds exactly on text that holds a serialized list |
| CartSlice.ParseSerialize | redux/features/cartSlice.ts:23-39 | whatever parses is the text written for the list it parses to |
| CartSlice.Serialize | redux/features/cartSlice.ts:37-41 | what is written to the slot parses back to the same list |
| CartSlice.LoadCart | redux/features/cartSlice.ts:18-30 | the empty list when there is no window, no slot, or the stored text does not parse; otherwise the parsed list |
| CartSlice.LoadAfterSave | redux/features/cartSlice.ts:18-41 | loading a slot saved from a cart gives that cart |
| CartSlice.FindLine | redux/features/cartSlice.ts:48 | `find` by id: the first line with that id, and none exactly when no line has it |
| CartSlice.Added | redux/features/cartSlice.ts:47-54 | an existing id: same length, and only the first matching line changes, by the payload quantity; a new id: the payload is appended and every earlier line is kept |
| CartSlice.Removed | redux/features/cartSlice.ts:57-58 | no line with the id remains; every other line is kept and nothing new appears |
| CartSlice.QuantitySet | redux/features/cartSlice.ts:61-65 | only the first matching line's quantity becomes the given value, with no lower bound; an absent id leaves the list as it was |
| CartSlice.RemovedAbsentIsIdentity | redux/features/cartSlice.ts:58 | removing an id that is not in the cart changes nothing |
| CartSlice.RemovedIsSubsequence | redux/features/cartSlice.ts:58 | removal keeps the remaining lines in their original relative order |
| CartSlice.RemovedLength | redux/features/cartSlice.ts:58 | with distinct ids, removal drops exactly one line when the id is present and none otherwise |
| CartSlice.AddedTwiceMerges | redux/features/cartSlice.ts:47-54 | adding the same id twice gives one line whose quantity is the sum |
| CartSlice.AddedKeepsIdsDistinct | redux/features/cartSlice.ts:47-54 | pairwise distinct ids stay distinct after an add |
| CartSlice.AddedKeepsQuantitiesPositive | redux/features/cartSlice.ts:47-54 | quantities of at least 1 stay at least 1 after adding a payload of at least 1 |
| CartSlice.RemovedKeepsInvariants | redux/features/cartSlice.ts:57-58 | removal keeps ids distinct and quantities positive |
| CartSlice.QuantitySetKeepsInvariants | redux/features/cartSlice.ts:61-65 | setting a quantity keeps ids distinct, and keeps quantities positive when the new value is at least 1 |
| CartSlice.CartStore.constructor | redux/features/cartSlice.ts:32-34 | the initial cart is the one hydrated from the slot |
| CartSlice.CartStore.SaveCartToStorage | redux/features/cartSlice.ts:37-41 | with a window the slot holds the serialized cart; without one the slot is untouched |
| CartSlice.CartStore.AddToCart | redux/features/cartSlice.ts:47-56 | the cart becomes `Added` of the old cart, and the slot is written through and loads back to it |
| CartSlice.CartStore.RemoveFromCart | redux/features/cartSlice.ts:57-60 | the cart becomes `Removed` of the old cart, written through |
| CartSlice.CartStore.UpdateQuantity | redux/features/cartSlice.ts:61-67 | the cart becomes `QuantitySet` of the old cart, written through |
| CartSlice.CartStore.ClearCart | redux/features/cartSlice.ts:68-71 | the cart is empty, written through |
| OrderSlice.RejectionMessage | redux/features/orderSlice.ts:33-38 | the response message when present and non-empty, else the transport message; a non-transport error gives "An unknown error occurred" |
| OrderSlice.OrderStore.constructor | redux/features/orderSlice.ts:23-27 | the initial state is not loading, no error, not successful |
| OrderSlice.OrderStore.ResetOrderState | redux/features/orderSlice.ts:45-49 | any state goes back to the initial state, so a second reset changes nothing |
| OrderSlice.OrderStore.Pending | redux/features/orderSlice.ts:53-57 | loading, no error, not successful, whatever came before |
| OrderSlice.OrderStore.Fulfilled | redux/features/orderSlice.ts:58-61 | not loading and successful; the error is left as it was |
| OrderSlice.OrderStore.Rejected | redux/features/orderSlice.ts:62-65 | not loading and the error is the rejection value; success is left as it was |
| OrderSlice.OrderStore.PlaceOrder | redux/features/orderSlice.ts:29-65 | after pending and then one outcome, not loading; successful exactly when the POST succeeded; never both successful and holding an error |
| ProductSlice.ProductsOf | redux/features/productSlice.ts:19-30 | the nested list, or `[]` when it is falsy; the transport message on a transport error; "An unknown error occurred" when the body lacks `data.data` |
| ProductSlice.FindProduct | redux/features/productSlice.ts:38 | the first product whose decimal id text equals the argument, and none exactly when no product matches |
| ProductSlice.SingleProductOf | redux/features/productSlice.ts:32-62 | a cache hit returns the first loaded match; on a miss, the first match of the fetched list, or "Product not found" exactly when it has none, or the fetch's failure |
| ProductSlice.CacheHitIgnoresResponse | redux/features/productSlice.ts:38-42 | on a cache hit the result does not depend on what a fetch would return |
| ProductSlice.MatchedIdParses | redux/features/productSlice.ts:38 | a product matches only the decimal spelling that parses back to its id |
| ProductSlice.ProductStore.constructor | redux/features/productSlice.ts:12-17 | no products, no selected product, not loading, no error |
| ProductSlice.ProductStore.Pending | redux/features/productSlice.ts:70-73 | loading and no error; the product list and the selected product are unchanged |
| ProductSlice.ProductStore.ProductsFulfilled | redux/features/productSlice.ts:74-77 | not loading; the list is the payload, or empty when it is absent; selected product and error unchanged |
| ProductSlice.ProductStore.ProductsRejected | redux/features/productSlice.ts:78-82 | not loading, the error recorded, the list emptied |
| ProductSlice.ProductStore.SingleFulfilled | redux/features/productSlice.ts:87-90 | not loading, the selected product set; the list and error unchanged |
| ProductSlice.ProductStore.SingleRejected | redux/features/productSlice.ts:91-95 | not loading, the error recorded, the selected product cleared; the list unchanged |
| ProductSlice.ProductStore.FetchProducts | redux/features/productSlice.ts:19-30 | one fetch cycle leaves the list and error as `ProductsOf` decides |
| ProductSlice.ProductStore.FetchSingleProduct | redux/features/productSlice.ts:32-62 | one lookup cycle leaves the selected product and error as `SingleProductOf` decides, and never changes the list |
| Decimal.NatToString | app/cart/page.tsx:90-91 | `toString` of a non-negative number: non-empty decimal digits, no leading zero |
| Decimal.IntToString | components/order-form.tsx:59-60 | `toString` of an integer: digits after an optional leading minus |
| Decimal.LeadingDigits | components/order-form.tsx:33 | the longest all-digit prefix |
| Decimal.ParseInt | components/order-form.tsx:33 | `parseInt` is a number exactly when digits follow the optional sign |
| Decimal.ParseIntOfIntToString | components/order-form.tsx:59-65 | `parseInt` of `toString(n)` is n |
| Decimal.Join | app/cart/page.tsx:78-79 | `join`: empty for no parts, and otherwise starts with the first part |
| Decimal.JoinLength | app/cart/page.tsx:78-79 | a join is as long as its parts plus one separator fewer than there are parts |
| Decimal.Split | app/cart/page.tsx:78-79 | splitting on the separator gives at least one part; the source only joins here, and `Split` is the inverse the joined id and quantity lists are checked against (`SplitJoin`, `CartPage.OrderLinesAligned`) |
| Decimal.SplitJoin | app/cart/page.tsx:78-79 | splitting a join of separator-free parts gives the parts back |
| Common.Filter | redux/features/cartSlice.ts:58 | `Array.prototype.filter`: the kept elements all pass the test, and every element that passes is kept |
| Common.FilterIsSubsequence | components/product-grid.tsx:42-44 | a filter keeps elements in their original order |
| Common.SumOf | app/cart/page.tsx:136 | the `reduce` sum: 0 for no elements, the one term for one, non-negative when every term is, non-positive when every term is |
| Common.SumOfPartition | components/navbar.tsx:19 | the sum over the elements that pass a test plus the sum over those that fail it is the whole sum |
| CartPage.Subtotal | app/cart/page.tsx:136 | 0 for an empty cart, and price times quantity for one line |
| CartPage.SubtotalNonNegative | app/cart/page.tsx:136 | the subtotal is never negative when no price or quantity is |
| CartPage.Total | app/cart/page.tsx:136-138 | the delivery charge alone for an empty cart, and at least the delivery charge when no price or quantity is negative |
| CartPage.Utf16Length | app/cart/page.tsx:17-19 | JavaScript `length`: at least the number of characters and at most twice it, and equal to it when every character is in the Basic Multilingual Plane |
| CartPage.SchemaAccepts | app/cart/page.tsx:16-21 | `.min(3)` and `.min(10)` counted in UTF-16 code units: lengths of 3, 10 and 10 characters always pass, and anything that passes has at least 2, 5 and 5 characters |
| CartPage.SchemaCountsCodeUnits | app/cart/page.tsx:17 | a name of two emoji outside the Basic Multilingual Plane (length 4) is accepted |
| CartPage.SubtotalExample | app/cart/page.tsx:136-138 | lines of 100×2 and 50×1 give subtotal 250 and total 330 |
| CartPage.SubtotalAdded | app/cart/page.tsx:136 | an add raises the subtotal by the payload quantity times the unit price of the line it lands on |
| CartPage.SubtotalQuantitySet | app/cart/page.tsx:136 | a quantity change moves the subtotal by the line price times the difference |
| CartPage.IdTexts | app/cart/page.tsx:78 | one decimal id per cart line, in cart order |
| CartPage.QuantityTexts | app/cart/page.tsx:79 | one decimal quantity per cart line, in cart order |
| CartPage.BuildOrder | app/cart/page.tsx:78-94 | the customer fields are copied; `product_ids` and `s_product_qty` are the comma joins of the ids' and quantities' decimal texts; `cod_amount` is the decimal text of the subtotal plus 80 and parses back to it; delivery charge "80"; advance and discount null |
| CartPage.OrderLinesAligned | app/cart/page.tsx:78-79 | split on ",", ids and quantities have one entry per line, and entry i parses to line i's id and quantity |
| CartPage.CheckoutPage.constructor | app/cart/page.tsx:50-58 | the form starts at empty fields with courier "steadfast" |
| CartPage.CheckoutPage.Edit | app/cart/page.tsx:45-50 | typing replaces the form values |
| CartPage.CheckoutPage.HandleRemoveItem | app/cart/page.tsx:60-63 | the store's cart becomes `Removed` of the old cart, written through; without a window the slot is untouched |
| CartPage.CheckoutPage.HandleQuantityChange | app/cart/page.tsx:65-68 | a quantity below 1 changes neither cart nor slot; otherwise the cart becomes `QuantitySet`, written through, so positive quantities stay positive; without a window the slot is untouched |
| CartPage.CheckoutPage.Decrement | app/cart/page.tsx:186-189 | the minus button lowers a line by one only above 1, written through, and otherwise changes neither cart nor slot |
| CartPage.CheckoutPage.Increment | app/cart/page.tsx:194-196 | the plus button raises a line of quantity 0 or more by one, written through; a line with a negative stored quantity leaves cart and slot as they were, since the handler ignores a result below 1 |
| CartPage.CheckoutPage.OnSubmit | app/cart/page.tsx:70-122 | an empty cart returns before any body is built or anything changes; otherwise the body is `BuildOrder` of the cart; on success the cart is cleared, written through, and the form reset; on failure the cart and slot are kept |
| CartPage.CheckoutPage.Submit | app/cart/page.tsx:16-21 | the body is built exactly when the schema accepts the form (name at least 3 UTF-16 code units, phone and address at least 10) and the cart is not empty; with no body nothing changes (cart, slot, values, submitting flag); on success the cart is cleared and written through and the form reset; the submitting flag ends false; without a window the slot is untouched |
| OrderForm.TotalPrice | components/order-form.tsx:96 | one unit costs the price, and a non-negative price times a quantity of at least 1 is at least the price |
| OrderForm.GrandTotal | components/order-form.tsx:96-98 | one unit costs the price plus 80, and never less than that for a quantity of at least 1 |
| OrderForm.TotalsMatchCartPage | components/order-form.tsx:96-98 | the form's subtotal and total equal the cart page's for a one-line cart of the product at that quantity |
| OrderForm.RequiredFilled | components/order-form.tsx:51 | every value the cart page's schema accepts also passes the form's required-field check |
| OrderForm.BuildOrder | components/order-form.tsx:58-69 | the id, the quantity and `cod_amount` are the decimal texts of the product id, the quantity and `grandTotal`, and each parses back, so the charged amount is the displayed one; delivery charge "80" |
| OrderForm.FormState.constructor | components/order-form.tsx:23-30 | quantity 1, empty fields, courier "steadfast" |
| OrderForm.FormState.HandleQuantityChange | components/order-form.tsx:32-37 | only a parsed value above 0 replaces the quantity, so NaN or non-positive input leaves it unchanged and it stays at least 1 |
| OrderForm.FormState.Decrement | components/order-form.tsx:117 | the minus button lowers the quantity only when it is above 1; the form fields and the submitting flag are unchanged |
| OrderForm.FormState.Increment | components/order-form.tsx:133 | the plus button raises the quantity by one; the form fields and the submitting flag are unchanged |
| OrderForm.FormState.HandleInputChange | components/order-form.tsx:39-42 | only the named field takes the typed value; quantity and the submitting flag are unchanged |
| OrderForm.FormState.HandleCourierChange | components/order-form.tsx:44-46 | only the courier changes; quantity and the submitting flag are unchanged |
| OrderForm.FormState.HandleSubmit | components/order-form.tsx:48-94 | an empty name, phone or address aborts with no body; otherwise `BuildOrder`; on success quantity 1 and default fields; the quantity stays at least 1 |
| ProductGrid.ProductArray | components/product-grid.tsx:37 | a value that is not an array becomes the empty list |
| ProductGrid.ToLower | components/product-grid.tsx:43 | lower-casing maps each character and keeps the length |
| ProductGrid.Includes | components/product-grid.tsx:43 | `includes`: the empty string and the string itself are included, and nothing longer than the string is |
| ProductGrid.MatchesSearch | components/product-grid.tsx:42-44 | an empty term matches every product, a term never matches a shorter name, and a name matches itself in any mix of case |
| ProductGrid.Filtered | components/product-grid.tsx:42-44 | every kept product's lower-cased name contains the lower-cased term, and every such product is kept |
| ProductGrid.FilteredIsSubsequence | components/product-grid.tsx:42-44 | the filtered list is a subsequence of the products |
| ProductGrid.EmptyTermKeepsAll | components/product-grid.tsx:43 | an empty search term keeps every product |
| ProductGrid.Insert | components/product-grid.tsx:47-58 | one insertion step adds exactly the new product to the list |
| ProductGrid.InsertOrdered | components/product-grid.tsx:47-58 | inserting into an ordered list keeps it ordered |
| ProductGrid.Sorted | components/product-grid.tsx:47-58 | the sorted copy is a permutation of the filtered list, ordered by the comparator's key |
| ProductGrid.InsertKeepsClassOrder | components/product-grid.tsx:47-58 | an insertion places the new product after every earlier product of equal key |
| ProductGrid.SortedIsStable | components/product-grid.tsx:47-58 | products of equal key keep their relative order |
| ProductGrid.SortedOfOrdered | components/product-grid.tsx:47-58 | a list already in order is returned unchanged |
| ProductGrid.UnsortedKeepsOrder | components/product-grid.tsx:57 | the "default" comparator (always 0) leaves the filtered order unchanged |
| ProductGrid.PriceOrders | components/product-grid.tsx:48-51 | "price-low" gives non-decreasing prices, "price-high" non-increasing prices |
| ProductGrid.Limited | components/product-grid.tsx:62-65 | no limit or 0 shows all; a positive limit shows the first min(limit, n); a negative one drops that many from the end, as `slice` does |
| ProductGrid.DisplayProducts | components/product-grid.tsx:37-65 | the shown list is a front part of the matching products in the chosen order, and is ordered: every matching product (as a multiset) without a limit or with 0, the first `limit` with a positive limit, all but the last `-limit` with a negative one; every shown product is a catalog product matching the term |
| ProductGrid.DefaultViewShowsCatalog | components/product-grid.tsx:19-65 | the initial view (empty search, "default" order, no limit) shows the catalog as it is |
| ProductDetails.ImageUrl | components/product-details.tsx:23-26 | the url is the storage prefix followed by the file name |
| ProductDetails.ImageUrlInjective | components/product-details.tsx:23-26 | different file names give different urls |
| ProductDetails.ProductImages | components/product-details.tsx:22-28 | the main image with id 1 first, then one entry per extra image in order, none when the field is absent |
| ProductDetails.FirstUrlIndex | components/product-details.tsx:31 | `findIndex` by url: the first position with the url, or -1 exactly when there is none |
| ProductDetails.KeptPositionsEmbed | components/product-details.tsx:31 | over a prefix of the gallery, the kept entries are taken, in order, from positions inside that prefix |
| ProductDetails.KeptPositionsAreFirsts | components/product-details.tsx:31 | every kept position is where its url first occurs |
| ProductDetails.KeepFirstDistinct | components/product-details.tsx:31 | no two kept entries share a url |
| ProductDetails.UniqueImages | components/product-details.tsx:31 | the de-duplicated gallery has no two entries with the same url, and every entry comes from the gallery |
| ProductDetails.UniqueImagesIsSubsequence | components/product-details.tsx:31 | the de-duplicated gallery keeps the original order |
| ProductDetails.KeptPositionsHasFirsts | components/product-details.tsx:31 | every first occurrence in the prefix is among the kept positions |
| ProductDetails.UniqueImagesKeepsFirsts | components/product-details.tsx:31 | the entry at the first occurrence of each url is kept |
| ProductDetails.UniqueImagesKeepsEveryUrl | components/product-details.tsx:31 | every url of the gallery is still present |
| ProductDetails.UniqueImagesKeepsMainFirst | components/product-details.tsx:31 | the first entry stays first |
| ProductDetails.GalleryOpensWithMainImage | components/product-details.tsx:22-31 | the shown gallery opens with the product's main image |
| ProductDetails.UniqueImagesOfDistinct | components/product-details.tsx:31 | a gallery without repeated urls is shown as it is |
| ProductDetails.UniqueImagesIdempotent | components/product-details.tsx:31 | de-duplicating twice equals de-duplicating once |
| ProductDetails.StockLabel | components/product-details.tsx:43-51 | "In Stock" exactly when stock is above 0, "Out of Stock" otherwise |
| ProductDetails.OrFallback | components/product-details.tsx:101 | `value \|\| fallback`: the value unless it is absent or empty |
| ProductDetails.CategoryLabel | components/product-details.tsx:97 | the category name, or "Uncategorized" when there is no category or its name is empty; never empty |
| ProductDetails.CodeLabel | components/product-details.tsx:101 | the code, or "N/A" when it is absent or empty; never empty |
| ProductDetails.SkuLabel | components/product-details.tsx:105 | the unique id, or "N/A" when it is absent or empty; never empty |
| Pricing.RoundHalfUp | components/product-details.tsx:18 | `Math.round` of an exact quotient: the integer within one half of it, halves rounded up |
| Pricing.Divisor | components/product-card.tsx:35 | the price, or 1 when the price is 0 |
| Pricing.DiscountPercentage | components/product-card.tsx:33-36 | 0 unless the product is flagged and has a non-empty amount; NaN when the amount has no digits; otherwise 100·amount/divisor rounded half up, for a divisor of either sign |
| Pricing.StruckPrice | components/product-card.tsx:61-63 | shown exactly when `is_discount > 0` and an amount is present, and then it is price plus the parsed amount |
| Pricing.HasDiscount | components/product-card.tsx:34 | `is_discount && discount_amount`: for a non-negative flag, true exactly when the struck price is shown; a negative flag computes a percentage but shows no struck price |
| Pricing.ShowsPercentageBadge | components/product-card.tsx:67 | the "N% OFF" badge appears only for a discounted product whose amount parses |
| Pricing.PercentageBadgeIff | components/product-card.tsx:33-67 | for a positive price, the badge appears exactly when 200 times the amount is at least the price |
| Pricing.DiscountExample | components/product-details.tsx:16-19 | price 200 with amount "50" shows 25% off and a struck price of 250 |
| Pricing.PercentageWithinRange | components/product-details.tsx:16-19 | an amount between 0 and a positive price gives a percentage between 0 and 100 |
| ProductCard.CartPayload | components/product-card.tsx:20-28 | quantity 1, with the id, name, price and image copied from the product |
| ProductCard.CardAddCountsOne | components/product-card.tsx:19-30 | one click raises the badge count by exactly 1 and keeps ids distinct and quantities positive |
| ProductCard.HandleAddToCart | components/product-card.tsx:19-30 | the store's cart becomes `Added` of the one-unit payload, written through, and the count grows by 1 |
| Navbar.TotalItems | components/navbar.tsx:19 | 0 for an empty cart, non-negative when every quantity is, non-positive when none is positive |
| Navbar.BadgeVisible | components/navbar.tsx:70 | the badge shows only when mounted and some line has a positive quantity |
| Navbar.TotalItemsAtLeastLines | components/navbar.tsx:19 | with positive quantities the badge count is at least the number of lines |
| Navbar.BadgeVisibleIffLines | components/navbar.tsx:70 | with positive quantities, the badge shows exactly when mounted and the cart has lines |
| Navbar.TotalItemsAdded | components/navbar.tsx:19 | an add raises the count by the payload quantity |
| Navbar.TotalItemsQuantitySet | components/navbar.tsx:19 | a quantity change moves the count by the difference |
| Navbar.TotalItemsRemoved | components/navbar.tsx:19 | removal lowers the count by exactly the quantities of the removed lines, so it never rises when quantities are positive |
| Navbar.Menu.constructor | components/navbar.tsx:10-12 | the menu starts closed and unmounted |
| Navbar.Menu.Mount | components/navbar.tsx:15-17 | the mount effect sets mounted |
| Navbar.Menu.ToggleMenu | components/navbar.tsx:21-23 | the menu flips, so two toggles restore it |
| Navbar.Menu.CloseMenu | components/navbar.tsx:25-27 | the menu is closed afterwards, so closing twice is the same as once |

## Left out

- Network calls are not modelled. The catalog GET, the order POST and their transports are absent; what they return is a parameter (`CatalogResponse`, `PostOutcome`, `succeeded`).
- JSON text and the `localStorage` API are not modelled. The slot holds either a serialized list or unparseable text, and parsing is a partial function. A slot whose text parses to something other than a list of lines is not distinguished from one that holds a list.
- Timers, the simulated delays, toasts and router redirects are side effects with no state in the model.
- The cart page never dispatches the order request; its dispatch is commented out. `CartPage.CheckoutPage.OnSubmit` therefore takes the outcome as a parameter and leaves the order store alone. `OrderSlice.OrderStore.PlaceOrder` models the thunk on its own.
- Overlapping fetches are not modelled. Two in-flight fetches, where the last response to arrive wins, are concurrent interleavings, and each model method is one complete request cycle.
- The grid's "name-asc" and "name-desc" sorts are left out. They depend on `localeCompare`, which is locale-dependent library ordering.
- `ProductGrid.ToLower`: only ASCII letters are case-folded, not Unicode.
- The `?.` guards in the grid filter are left out. A product's name is always a string here, so the null-product and null-name cases do not arise.
- `Decimal.ParseInt` ignores `parseInt`'s leading whitespace, hexadecimal prefixes and other radices.
- Floating point is not modelled. Prices, amounts and quantities are unbounded integers, and the percentage is computed exactly before rounding. Non-integer prices and rounding error in `a / p * 100` are not represented.
- zod and react-hook-form are represented only by the three minimum-length rules (`CartPage.SchemaAccepts`), and their error messages are not modelled.
- Redux Toolkit, Immer, the store wiring and the rendering itself are not modelled.
- `CartPage.CheckoutPage.OnSubmit` and `OrderForm.FormState.HandleSubmit`: `isSubmitting` is shown only as false once submission ends. The intermediate rendering while it is true is not observable in a sequential model.
