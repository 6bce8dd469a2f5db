# cloth storefront — a verified model of its core

This project models the logic of the cloth storefront: an online clothing shop built with Next.js, a Prisma database and NextAuth sign-in. It proves properties of that logic in Dafny. The model covers:

- The client pages, each modelled as a class whose fields are the component state and whose methods are the event handlers:
  - the cart page: quantity edits, removal, the promo code and the order summary;
  - the checkout page: its summary, the shipping/payment/confirmation flow and the order number;
  - the shop page: the filter, sort and pagination of the catalogue.
- Pure page logic:
  - the order-history filter and status badges;
  - the FAQ toggles, search and icon colours;
  - the admin new-product form, with its editable variant and image lists and the payload it submits.
- The API routes, modelled against a `Database` object whose tables are `seq` fields and whose integrity rules live in `Db.Database.Valid`:
  - cart (get-or-create, add-or-merge);
  - orders (list, place an order, clear the cart, lower the stock);
  - products (query, rating summaries, pages, create);
  - categories (slug, duplicate check, list with counts);
  - addresses (one default per user and type);
  - reviews (delivered-order eligibility, one review per user and product);
  - users (registration with one cart per user).
- The credentials sign-in and the JWT and session callbacks.

The routes take one of three forms:

- The POSTs of the cart, orders, reviews and users routes are written two ways: as a function over table values that gives the reply and the new tables, with lemmas about it, and as a method on the database that is proved to produce exactly that function's outcome and to keep `Valid`.
- The GETs of the orders, addresses, reviews and categories routes only read the tables, so they are functions over table values.
- The cart GET, the products GET and POST, the categories POST and the addresses POST are methods on the database whose contracts state the reply and the new tables directly; the products GET's page is stated through the function `ProductsApi.Listing`.

Other conventions:

- Money is `real`.
- JavaScript truthiness (`x || y`, `if (!x)`) is written out with `Option` and explicit zero and empty-string tests.
- Case-insensitive matching uses ASCII case mapping.
- The clock, `Math.random`, the session user and `parseFloat` are parameters.

Behaviour of the code worth noting:

- The cart page's `calculateTotal` yields 25 for an empty cart, because the flat shipping fee is charged on any subtotal of 200 or less (`CartPage.EmptyCartTotal`); the page shows the empty-cart view instead of the summary, so that total is not displayed.
- The checkout shipping form does not require the country.
- The admin new-product page calls `useEffect` (src/app/admin/products/new/page.tsx:46) but imports only `useState` from React (line 3), so as shipped the page throws a ReferenceError on its first render and its form is never shown; the build hides the type error because it ignores build errors. `AdminNewProduct` models the form's handlers as they run once the import is added.
- Placing an order has no stock check and no lower bound on stock.
- Order numbers are not unique: two orders placed in the same millisecond can draw the same random number.
- A review's rating is not range-checked; only 0 and an absent rating are refused.
- A review update keeps the old comment when none is sent.
- A registered user has no stored password. The sign-in checks only its own two-account list, so a newly registered user cannot sign in.

## Model

| member | source | states |
|---|---|---|
| CartPage.Total | src/app/cart/page.tsx:141-143 | for a non-negative subtotal and a discount rate of at most 100%, the total is at least the VAT and never negative |
| CartPage.SubtotalNonNegative | src/app/cart/page.tsx:121-126 | with non-negative prices, sale prices and quantities, the subtotal is non-negative |
| CartPage.EmptyCartTotal | src/app/cart/page.tsx:121-143 | an empty cart has subtotal 0 and total equal to the 25 SAR shipping fee, whatever the discount |
| CartPage.HintAgreesWithShipping | src/app/cart/page.tsx:368-377 | the free-shipping notice shows iff subtotal < 200 and then asks for exactly 200 − subtotal while shipping is charged; shipping is free iff subtotal > 200; at exactly 200 neither |
| CartPage.PromoRate | src/app/cart/page.tsx:108-119 | a rate exists iff the upper-cased code is WELCOME10 or SAVE20: WELCOME10 gives 0.1 and SAVE20 gives 0.2 |
| CartPage.PromoRateIgnoresCase | src/app/cart/page.tsx:109-112 | a code and its lower-cased form give the same rate |
| CartPage.WithQuantity | src/app/cart/page.tsx:95-101 | same length; each line with the id gets quantity min(q, stock), every other line is unchanged |
| CartPage.UpdatedQuantityWithinStock | src/app/cart/page.tsx:95-101 | an edited line never exceeds its stock, and holds at least one item when the stock allows it |
| CartPage.RemoveKeepsOtherLines | src/app/cart/page.tsx:104-106 | removal keeps exactly the lines with another id, each as often as before, as an order-preserving subsequence |
| CartPage.RemoveUniqueLine | src/app/cart/page.tsx:104-106 | removing a line with a unique id leaves the lines before and after it, joined |
| CartPage.RemoveLowersSubtotal | src/app/cart/page.tsx:104-126 | removing a uniquely-identified line takes exactly its amount off the subtotal |
| CartPage.CartPageState.constructor | src/app/cart/page.tsx:37-41 | the initial state: no lines, empty promo code and error, no discount |
| CartPage.CartPageState.Load | src/app/cart/page.tsx:84-90 | the simulated fetch replaces the lines |
| CartPage.CartPageState.EnterPromoCode | src/app/cart/page.tsx:350-351 | the promo input sets the code |
| CartPage.CartPageState.UpdateQuantity | src/app/cart/page.tsx:92-102 | a quantity below 1 changes nothing; otherwise the lines become WithQuantity of the old lines |
| CartPage.CartPageState.RemoveItem | src/app/cart/page.tsx:104-106 | the lines become the old lines without those of the id |
| CartPage.CartPageState.ApplyPromoCode | src/app/cart/page.tsx:108-119 | a known code sets its rate and clears the error; any other sets rate 0 and "Invalid promo code"; the rate stays in {0, 0.1, 0.2} |
| CartPage.CartPageState.CalculateTotal | src/app/cart/page.tsx:141-143 | the summary total is non-negative whenever the subtotal is |
| CheckoutPage.Total | src/app/checkout/page.tsx:96-98 | the total is 115% of the subtotal, plus 25 exactly when the subtotal is at most 200 (shipping is free above it); it never falls below the subtotal; no discount term |
| CheckoutPage.ShownAmounts | src/app/checkout/page.tsx:507-509 | one shown amount per line, each (sale price or price) × quantity |
| CheckoutPage.ShownAmountsAddUp | src/app/checkout/page.tsx:80-85 | the per-line amounts shown add up to the subtotal |
| CheckoutPage.MockCartTotal | src/app/checkout/page.tsx:58-78 | the built-in cart's subtotal is 1047, so shipping is free, and its total is 1204.05 |
| CheckoutPage.Base36Upper | src/app/checkout/page.tsx:111 | upper-casing a base-36 digit gives a digit or capital letter that lower-cases back to it |
| CheckoutPage.OrderNumber | src/app/checkout/page.tsx:111 | "KSA-" followed by the upper-cased suffix: well formed, 4 + \|suffix\| long, and the suffix is recoverable by lower-casing |
| CheckoutPage.CheckoutPageState.constructor | src/app/checkout/page.tsx:30-49 | step 1, not processing, not complete, no order number, bank transfer, the initial shipping form with country "Saudi Arabia" |
| CheckoutPage.CheckoutPageState.EditShipping | src/app/checkout/page.tsx:238-241 | typing sets the shipping form |
| CheckoutPage.CheckoutPageState.ShippingSubmit | src/app/checkout/page.tsx:100-103 | with every required field filled and a valid e-mail address the page moves to step 2, otherwise the browser blocks the submit and it stays on step 1; the step never leaves {1, 2} |
| CheckoutPage.DomainHasNoAt | src/app/checkout/page.tsx:259-265 | the domain part accepted by the `type="email"` input holds no "@" |
| CheckoutPage.EmailShape | src/app/checkout/page.tsx:259-265 | an address the e-mail input accepts is a non-empty local part, its one and only "@", and a non-empty domain |
| CheckoutPage.EmailFromParts | src/app/checkout/page.tsx:259-265 | conversely, any local part, "@" and domain make an accepted address |
| CheckoutPage.MalformedEmailRefused | src/app/checkout/page.tsx:259-265 | a filled-in but malformed address ("abc") is refused, so the shipping step does not advance |
| CheckoutPage.WellFormedEmailAccepted | src/app/checkout/page.tsx:259-265 | a well-formed address ("a@b.co") is accepted |
| CheckoutPage.CheckoutPageState.BackToShipping | src/app/checkout/page.tsx:469 | "Back to Shipping" returns to step 1 |
| CheckoutPage.CheckoutPageState.SelectPaymentMethod | src/app/checkout/page.tsx:362-379 | the method stays bank transfer: cash on delivery is disabled |
| CheckoutPage.CheckoutPageState.PaymentSubmit | src/app/checkout/page.tsx:105-107 | a submit leaves the page processing; a second click while processing changes nothing (the button is disabled at line 473) |
| CheckoutPage.CheckoutPageState.CompleteProcessing | src/app/checkout/page.tsx:110-115 | completion sets the order number from the suffix, marks the order complete and stops processing |
| CheckoutPage.CheckoutPageState.CalculateTotal | src/app/checkout/page.tsx:96-98 | the summary shows SAR 1204.05 for the built-in cart: its subtotal of 1047 ships free, so the total is 115% of the subtotal |
| Db.FindProduct | src/app/api/cart/route.ts:91-96 | finds the product with the id iff one exists |
| Db.FindVariant | src/app/api/orders/route.ts:89 | finds the variant with the id iff one exists |
| Db.AtMostOneCart | src/app/api/cart/route.ts:18-19 | under one cart per user, a user's carts number at most one |
| Db.CartOf | src/app/api/cart/route.ts:117-119 | `findUnique({ userId })`: the first cart of the user, None iff the user has none |
| Db.ExactlyOneCart | src/app/api/cart/route.ts:117-127 | with one cart per user, a user who has a cart has exactly that one |
| Db.ClearCartLines | src/app/api/orders/route.ts:147-149 | deleting a cart's lines empties that cart and leaves every other cart's lines as they were |
| Db.SalePriceIgnored | src/app/api/cart/route.ts:57-60 | a product's sale price never changes what a cart line costs |
| CartApi.ItemCountOfCart | src/app/api/cart/route.ts:65 | a cart's item count is the sum of the quantities of the table rows in that cart |
| CartApi.ItemCountAtLeastLines | src/app/api/cart/route.ts:65 | with at least one unit per line, the item count is at least the number of lines |
| CartApi.CreateCart | src/app/api/cart/route.ts:35-54 | a new empty cart for a registered user without one, under the next id; the user then has exactly this cart; the tables stay valid |
| CartApi.GetOrCreateCart | src/app/api/cart/route.ts:117-127 | returns the existing cart unchanged, else creates one for a registered user, else fails with nothing changed; on success the user has exactly one cart |
| CartApi.CartOfAppend | src/app/api/cart/route.ts:121-127 | after appending a user's first cart, the lookup finds it |
| CartApi.GetCart | src/app/api/cart/route.ts:6-74 | 401 without a session user; the existing cart's view; a new empty cart with subtotal 0 and count 0; 500 for an unknown user; afterwards exactly one cart |
| CartApi.VariantOfProduct | src/app/api/cart/route.ts:107 | finds a variant iff one with that id belongs to the product |
| CartApi.CheckAdd | src/app/api/cart/route.ts:98-114 | 404 iff the product is unknown; 400 "Insufficient stock" iff a named variant is not the product's or has less stock than requested; otherwise the request is addable |
| CartApi.FindLine | src/app/api/cart/route.ts:130-136 | the first line of the cart with the product (and the variant, when one is given), None iff there is none |
| CartApi.AddLineShape | src/app/api/cart/route.ts:138-156 | a merge raises only the first matching line's quantity and adds no line; an insert appends exactly one line and changes no other |
| CartApi.AddLineAddsQuantity | src/app/api/cart/route.ts:138-156 | either way the cart's item count grows by exactly the requested quantity |
| CartApi.AddLineKeepsOtherCarts | src/app/api/cart/route.ts:138-156 | the lines of every other cart are unchanged |
| CartApi.MergeCanExceedStock | src/app/api/cart/route.ts:108 | the stock check looks only at the requested quantity: a concrete merge passes it yet exceeds the stock |
| CartApi.PostForAdds | src/app/api/cart/route.ts:116-185 | a successful add is the old table with the request merged or appended, replied with 200 and that cart's lines and totals; the count grows by the quantity |
| CartApi.PostForFails | src/app/api/cart/route.ts:121-127 | past the input and stock validation, the add fails (500, nothing changed) iff the user has no cart and is not registered |
| CartApi.PostForOneCart | src/app/api/cart/route.ts:117-127 | after a successful add the user owns exactly one cart, the returned one, either found or newly created with the next id |
| CartApi.CartsStayValid | src/app/api/cart/route.ts:121-127 | a new cart for a registered user without one keeps one cart per user |
| CartApi.PostRefusals | src/app/api/cart/route.ts:80-114 | 401 without a session user, the validation's refusal otherwise, and nothing changes; with both passed the POST is the add |
| CartApi.AddOrMerge | src/app/api/cart/route.ts:129-156 | the line table becomes AddLine of the old one; an id is drawn only for an insert; the tables stay valid |
| CartApi.AddAndView | src/app/api/cart/route.ts:138-185 | add or merge, then reply with the cart's lines, subtotal and count |
| CartApi.AddToNewCart | src/app/api/cart/route.ts:121-157 | for a registered user without a cart: the cart is created under the next id and the add goes to it, as AddTo describes |
| CartApi.AddForUser | src/app/api/cart/route.ts:116-185 | the database ends as PostFor describes, with its reply |
| CartApi.AddToCart | src/app/api/cart/route.ts:76-193 | the POST handler: reply and tables exactly as Post describes; the tables stay valid |
| OrdersApi.NewestFirstIsTotal | src/app/api/orders/route.ts:33 | newest-first is a total preorder |
| OrdersApi.ListOrders | src/app/api/orders/route.ts:6-44 | 401 iff no session user; otherwise exactly the user's orders, each as often as stored, newest first |
| OrdersApi.RandomSuffix | src/app/api/orders/route.ts:97 | `Math.floor(Math.random() * 1000)` is below 1000 |
| OrdersApi.OrderNumberRoundTrip | src/app/api/orders/route.ts:97 | the timestamp and the random number can be read back from "ORD-<timestamp>-<n>" |
| OrdersApi.Snapshot | src/app/api/orders/route.ts:110-116 | one order item per cart line, with its product, variant and quantity and the unit price at order time |
| OrdersApi.SnapshotMatchesSubtotal | src/app/api/orders/route.ts:88-91 | the order items' amounts add up to the cart subtotal |
| OrdersApi.MakePayment | src/app/api/orders/route.ts:118-128 | a payment row iff the method is truthy, for the order total, pending; bank fields copied only for BANK_TRANSFER |
| OrdersApi.NewOrderConsistent | src/app/api/orders/route.ts:93-128 | a new order is pending; its items add up to its subtotal; tax is 10%; total = subtotal + shipping (0 when absent) + tax; its payment is for its total |
| OrdersApi.Decrement | src/app/api/orders/route.ts:154-161 | the named variant's stock drops by q, every other row is unchanged |
| OrdersApi.QtyForUnreferenced | src/app/api/orders/route.ts:152-153 | a variant that no line names keeps its stock |
| OrdersApi.QtyForNonNegative | src/app/api/orders/route.ts:152-163 | with positive line quantities stock only goes down, with no floor |
| OrdersApi.StockAfterKeepsIds | src/app/api/orders/route.ts:152-163 | lowering stock keeps the set of variant ids |
| OrdersApi.DecrementStock | src/app/api/orders/route.ts:152-163 | the loop lowers every variant's stock by the summed quantity of the lines naming it |
| OrdersApi.StockAfterIsLowered | src/app/api/orders/route.ts:152-163 | the loop's outcome equals the one-step stock table |
| OrdersApi.PostOrderRefusals | src/app/api/orders/route.ts:50-85 | it fails iff there is no session user (401), the cart is missing or empty (400 "Cart is empty"), or a bank transfer has no details (500); a failure leaves every table unchanged |
| OrdersApi.PostOrderPlaces | src/app/api/orders/route.ts:97-144 | a placed order is the user's, pending, numbered so that time and random number read back, one item per line, items adding up to the subtotal, total = subtotal × 1.1 + shipping, appended under the next id, 201 |
| OrdersApi.PostOrderClearsCart | src/app/api/orders/route.ts:146-163 | afterwards the user's cart has no lines, other carts' lines are unchanged, and each variant's stock is lowered by what the lines took |
| OrdersApi.Commit | src/app/api/orders/route.ts:100-163 | the order is appended, the cart's lines deleted and the stock lowered; the tables stay valid |
| OrdersApi.Place | src/app/api/orders/route.ts:97-163 | the order row built from the cart under the next id, with the writes of Commit |
| OrdersApi.PlaceOrder | src/app/api/orders/route.ts:46-173 | the POST handler: reply and tables exactly as PostOrder describes; a placed order's id is taken by no earlier order; the tables stay valid |
| ShopPage.FilteredIsOneFilter | src/app/shop/page.tsx:164-197 | the chain of conditional filters keeps exactly what one filter with every active test keeps |
| ShopPage.ComparatorsAreTotal | src/app/shop/page.tsx:200-212 | each sort comparator is a total preorder |
| ShopPage.SortOrderIsTotal | src/app/shop/page.tsx:200-216 | the comparator of every sort option is a total preorder |
| ShopPage.ResultsAreMatches | src/app/shop/page.tsx:164-218 | the results are the matching products, each as often as in the catalogue, and never more products than the catalogue |
| ShopPage.ResultsOrder | src/app/shop/page.tsx:200-216 | the results are sorted by the chosen comparator; with "featured" they are an order-preserving subsequence of the catalogue |
| ShopPage.PageSlice | src/app/shop/page.tsx:248-250 | at most 12 products, those at indices (page − 1)·12 onward |
| ShopPage.PagesCoverResults | src/app/shop/page.tsx:248-251 | each product appears on page i/12 + 1 at place i mod 12; a page is non-empty iff its number is at most ceil(n/12) |
| ShopPage.Unchecked | src/app/shop/page.tsx:226 | unchecking removes every occurrence of the value and keeps the rest in order |
| ShopPage.Toggled | src/app/shop/page.tsx:222-236 | checking appends the value; unchecking is Unchecked |
| ShopPage.ShopPageState.constructor | src/app/shop/page.tsx:30-43 | no products yet, the initial controls, page 1 |
| ShopPage.ShopPageState.RunEffect | src/app/shop/page.tsx:164-220 | the list becomes the results of the current controls and the page returns to 1 |
| ShopPage.ShopPageState.Load | src/app/shop/page.tsx:155-162 | the catalogue arrives and the list is recomputed at page 1 |
| ShopPage.ShopPageState.SetSearchTerm | src/app/shop/page.tsx:275 | sets the term; the page returns to 1 unless the term is unchanged |
| ShopPage.ShopPageState.SetCategory | src/app/shop/page.tsx:284 | sets the category; the page returns to 1 unless it is unchanged |
| ShopPage.ShopPageState.SetSortBy | src/app/shop/page.tsx:348 | sets the sort; the page returns to 1 unless it is unchanged |
| ShopPage.ShopPageState.SetPriceRange | src/app/shop/page.tsx:306 | sets the range; the page returns to 1 |
| ShopPage.ShopPageState.HandleSizeChange | src/app/shop/page.tsx:222-228 | the sizes become Toggled of the old sizes; the page returns to 1 |
| ShopPage.ShopPageState.HandleColorChange | src/app/shop/page.tsx:230-236 | the colours become Toggled of the old colours; the page returns to 1 |
| ShopPage.ShopPageState.ClearFilters | src/app/shop/page.tsx:238-245 | every control back to its initial value; the page returns to 1 |
| ShopPage.ShopPageState.PreviousPage | src/app/shop/page.tsx:554 | the page becomes max(page − 1, 1) |
| ShopPage.ShopPageState.NextPage | src/app/shop/page.tsx:571 | the page becomes min(page + 1, totalPages) |
| ShopPage.ShopPageState.SelectPage | src/app/shop/page.tsx:561 | the page becomes the link's number |
| ShopPage.ShopPageState.CurrentProducts | src/app/shop/page.tsx:248-250 | at most 12 listed products, all from the list, and some whenever the list is non-empty |
| ProductsApi.BuildWhere | src/app/api/products/route.ts:15-32 | the field-by-field `where` equals the query's where object |
| ProductsApi.QueryWhereSelects | src/app/api/products/route.ts:15-32 | a product is selected iff it is active, in the category when one is given, featured when featured=true, and its name or description contains a truthy search ignoring case |
| ProductsApi.Window | src/app/api/products/route.ts:50-51 | skip/take on the ordered rows: min(|take|, rows left after skip) of them; for take >= 0 the row `skip` places further on, for take < 0 the rows just before the last `skip` |
| ProductsApi.WindowFromEnd | src/app/api/products/route.ts:50-51 | a negative take is the forward window of the reversed rows, reversed back |
| ProductsApi.WindowKeepsOrder | src/app/api/products/route.ts:49-51 | a window of ordered rows is ordered |
| ProductsApi.AverageWithinBounds | src/app/api/products/route.ts:59-61 | the mean rating lies within any bounds the ratings lie within |
| ProductsApi.Summary | src/app/api/products/route.ts:57-63 | reviewCount is the product's number of reviews; it is 0 iff the product has none, and then the average is 0 |
| ProductsApi.Summaries | src/app/api/products/route.ts:57-63 | one summary per product, in order |
| ProductsApi.Pages | src/app/api/products/route.ts:71 | a page count exists iff the limit is non-zero (Infinity and NaN serialise as null); it is non-negative for a positive limit and at most 0 for a negative one |
| ProductsApi.PagesBounds | src/app/api/products/route.ts:71 | the count is Math.ceil(total / limit): for a positive limit the least count whose pages cover total, for a negative limit the least integer at or above the negative quotient |
| ProductsApi.NewestFirstIsTotal | src/app/api/products/route.ts:49 | createdAt desc is a total preorder |
| ProductsApi.ListingSelects | src/app/api/products/route.ts:34-52 | the page holds at most |limit| products, each a selected catalogue row |
| ProductsApi.ListingNewestFirst | src/app/api/products/route.ts:34-52 | the selection is sorted newest first and is a permutation of the selected rows; the page is newest first |
| ProductsApi.ListingFromSkip | src/app/api/products/route.ts:34-63 | for a non-negative limit, row i of the ordered selection with skip <= i < skip + limit is at place i - skip of the page, with its rating summary |
| ProductsApi.ListingFromEnd | src/app/api/products/route.ts:34-63 | for a negative limit, the page holds min(|limit|, rows left after skip) rows: the last ones of the ordered selection before its final `skip` rows, in order, each with its rating summary |
| ProductsApi.ListProducts | src/app/api/products/route.ts:4-81 | 500 iff skip = (page - 1) * limit is negative; otherwise 200 with page and limit defaulting to 1 and 12, the products exactly Listing of the query's where object at that skip and take (each active and meeting every filter), total the number of selected rows and pages = Pages(total, limit) |
| ProductsApi.TruthyOrNull | src/app/api/products/route.ts:116 | a falsy price becomes null, a truthy one is kept |
| ProductsApi.VariantRows | src/app/api/products/route.ts:121-127 | one variant row per input, with consecutive ids from the first id given, a falsy price stored as null |
| ProductsApi.ImageRows | src/app/api/products/route.ts:129-134 | one image row per input with position equal to its index, whatever position was submitted |
| ProductsApi.InsertProduct | src/app/api/products/route.ts:111-142 | the product, variant and image rows are appended; the tables stay valid |
| ProductsApi.CreateProduct | src/app/api/products/route.ts:83-152 | 400 for a taken SKU and 500 for an unknown category, with nothing inserted; otherwise 201 with the active product, isFeatured defaulting to false and a falsy sale price null, and its rows inserted under ids that no earlier product, variant or image has |
| ProductsApi.AppendUniqueSku | src/app/api/products/route.ts:99-108 | a product with an untaken SKU keeps SKUs unique |
| CategoriesApi.RunLength | src/app/api/categories/route.ts:42 | the length of the leading run of characters outside [a-z0-9] |
| CategoriesApi.Dashed | src/app/api/categories/route.ts:42 | every maximal run of other characters becomes one dash: only letters, digits and single dashes remain |
| CategoriesApi.SlugIsSlug | src/app/api/categories/route.ts:40-43 | every slug has only a–z, 0–9 and "-", never starts or ends with "-" and never has "--" |
| CategoriesApi.DashedOfSlugChars | src/app/api/categories/route.ts:42 | dashing text that is already letters, digits and single dashes leaves it unchanged |
| CategoriesApi.SlugOfSlug | src/app/api/categories/route.ts:40-43 | the slug of a well-formed slug is itself |
| CategoriesApi.SlugIdempotent | src/app/api/categories/route.ts:40-43 | slug(slug(n)) = slug(n) |
| CategoriesApi.DashedKeepsSlugChars | src/app/api/categories/route.ts:42 | dashing keeps the letters and digits, in order |
| CategoriesApi.TrimKeepsSlugChars | src/app/api/categories/route.ts:43 | trimming dashes keeps the letters and digits |
| CategoriesApi.SlugKeepsLettersAndDigits | src/app/api/categories/route.ts:40-43 | the slug holds exactly the letters and digits of the lower-cased name, in order |
| CategoriesApi.SlugEmptyIff | src/app/api/categories/route.ts:40-43 | the slug is empty iff the name has no ASCII letter or digit |
| CategoriesApi.AppendFreshCategory | src/app/api/categories/route.ts:46-69 | a row whose name and slug are untaken keeps names and slugs unique |
| CategoriesApi.CreateCategory | src/app/api/categories/route.ts:34-79 | 500 without a name; 400 iff the name or slug is taken; otherwise 201 with the active category under the next id and its slug; a failure changes nothing |
| CategoriesApi.NameLeTotal | src/app/api/categories/route.ts:16 | name order is total |
| CategoriesApi.NameLeTransitive | src/app/api/categories/route.ts:16 | name order is transitive |
| CategoriesApi.ByNameIsTotal | src/app/api/categories/route.ts:16 | ordering by name is a total preorder |
| CategoriesApi.ProductCount | src/app/api/categories/route.ts:9-21 | the count of active products of the category; 0 iff it has none |
| CategoriesApi.WithCounts | src/app/api/categories/route.ts:19-22 | one listing per category, in order, with its product count |
| CategoriesApi.ActiveByName | src/app/api/categories/route.ts:6-17 | exactly the active categories, as many as there are, in ascending name order |
| CategoriesApi.ListCategoriesSpec | src/app/api/categories/route.ts:4-32 | GET lists every active category and nothing else, in ascending name order, each with its count of active products |
| AddressesApi.DefaultThenNewestIsTotal | src/app/api/addresses/route.ts:19-22 | defaults first, then newest first, is a total preorder |
| AddressesApi.ListAddresses | src/app/api/addresses/route.ts:6-33 | 401 iff no session user; otherwise exactly the user's addresses, each once, defaults first, then newest first |
| AddressesApi.ClearDefaults | src/app/api/addresses/route.ts:70-78 | same length; rows of the user and type lose their default flag, all others unchanged |
| AddressesApi.ClearDefaultsEmptiesSlot | src/app/api/addresses/route.ts:69-79 | after clearing, the (user, type) slot holds no default and no row of another user or type has changed |
| AddressesApi.ClearDefaultsKeepsUnique | src/app/api/addresses/route.ts:69-79 | clearing keeps at most one default per (user, type) |
| AddressesApi.ClearDefaultsOfStranger | src/app/api/addresses/route.ts:70-78 | clearing for a user without rows changes nothing |
| AddressesApi.InsertKeepsUnique | src/app/api/addresses/route.ts:81-95 | inserting a non-default, or a default into an empty slot, keeps defaults unique |
| AddressesApi.CreateAddress | src/app/api/addresses/route.ts:35-105 | 401; 400 for any empty field; 500 for an unregistered user; otherwise 201, clearing first when default; the new row is then the only default of its slot, and other users' and types' rows are unchanged |
| ReviewsApi.NewestFirstIsTotal | src/app/api/reviews/route.ts:28 | newest first is a total preorder |
| ReviewsApi.ListReviews | src/app/api/reviews/route.ts:6-39 | 400 "Product ID is required" iff no product id; otherwise exactly that product's reviews, each as often as stored, newest first |
| ReviewsApi.FindReview | src/app/api/reviews/route.ts:82-89 | the index of the first review of the (user, product) pair, None iff there is none |
| ReviewsApi.PostReviewRefusals | src/app/api/reviews/route.ts:45-79 | 401 without a session user; 400 without a product id or with a missing or zero rating; 400 unless the user has a delivered order with the product; failures change nothing; nothing else fails |
| ReviewsApi.PostReviewUpserts | src/app/api/reviews/route.ts:82-130 | afterwards the pair has exactly one review, the returned one; 201 iff it had none before (one row added), else 200 with the row replaced; other reviews unchanged |
| ReviewsApi.PostReviewKeepsUnique | src/app/api/reviews/route.ts:82-130 | a POST keeps at most one review per (user, product) |
| ReviewsApi.SubmitReview | src/app/api/reviews/route.ts:41-138 | the POST handler: reply and tables exactly as PostReview describes; the tables stay valid |
| UsersApi.UserByEmail | src/app/api/users/route.ts:18-20 | finds a user iff one has the email |
| UsersApi.RegisterRefusals | src/app/api/users/route.ts:10-27 | 400 iff a name, email or password is missing, or the email is registered; a refusal inserts nothing |
| UsersApi.RegisterCreatesCustomer | src/app/api/users/route.ts:30-45 | 201 with a fresh id, role CUSTOMER, no stored password, the given name, email and phone; users stay valid |
| UsersApi.RegisterCreatesOneCart | src/app/api/users/route.ts:48-52 | exactly one cart is added, and it is the new user's only cart; one cart per user is kept |
| UsersApi.UserAddedKeepsValid | src/app/api/users/route.ts:30-45 | a user with a new email under the next id keeps the user, cart and address tables valid |
| UsersApi.InsertUser | src/app/api/users/route.ts:30-45 | the user row is appended under the next id; the tables stay valid |
| UsersApi.RegisterUser | src/app/api/users/route.ts:4-62 | the POST handler: reply and tables exactly as Register describes; the tables stay valid |
| AuthConfig.FindAccount | src/lib/auth/config.ts:35 | the first account with the email, None iff there is none |
| AuthConfig.AuthorizeIn | src/lib/auth/config.ts:12-47 | null when the credentials, email or password are missing; a result is always an account with exactly that email and password, without its password |
| AuthConfig.AuthorizeExactly | src/lib/auth/config.ts:35-46 | with distinct emails, sign-in succeeds iff the account's password matches, returns that account without its password, and fails for an unknown email |
| AuthConfig.BuiltInAccounts | src/lib/auth/config.ts:18-33 | both built-in accounts sign in with "password123" and no other password; the admin gets id "2" and role ADMIN |
| AuthConfig.Token.constructor | src/lib/auth/config.ts:54 | a token with its subject and no role |
| AuthConfig.Session.constructor | src/lib/auth/config.ts:60 | a session without user id or role |
| AuthConfig.JwtCallback | src/lib/auth/config.ts:54-59 | copies the user's role into the token when a user is present; otherwise the token is unchanged |
| AuthConfig.SessionCallback | src/lib/auth/config.ts:60-66 | the session user takes the token's subject as id and the token's role |
| AuthConfig.SignIn | src/lib/auth/config.ts:12-66 | after sign-in and both callbacks, the session carries the id and role of the authorised account, or nothing |
| OrdersPage.FilteredOrders | src/app/orders/page.tsx:154-165 | an order is kept iff its id or an item name contains the search ignoring case, the status filter is "all" or equal, and the date filter passes; as an order-preserving subsequence |
| OrdersPage.NoFilterKeepsAll | src/app/orders/page.tsx:154-165 | an empty search with both selectors on "all" keeps every order |
| OrdersPage.WeekWithinMonth | src/app/orders/page.tsx:160-162 | the "week" list is a subsequence of the "month" list |
| OrdersPage.UnknownDateFilterKeepsNothing | src/app/orders/page.tsx:160-164 | a date filter other than all, week or month keeps nothing |
| OrdersPage.GetStatusBadge | src/app/orders/page.tsx:117-135 | always a configured badge; an unknown status gets the PENDING badge |
| OrdersPage.GetPaymentStatusBadge | src/app/orders/page.tsx:137-152 | always a configured badge; an unknown payment status gets the PENDING badge |
| OrdersPage.StatusBadgesCoverOrderStatuses | src/app/orders/page.tsx:118-124 | every order status has its own entry, and distinct statuses show distinct captions |
| OrdersPage.UnknownStatusShowsPending | src/app/orders/page.tsx:126 | a string naming no order status shows the Pending badge |
| OrdersPage.PaymentBadgesCoverPaymentStatuses | src/app/orders/page.tsx:138-143 | every payment status has its own entry, and distinct statuses show distinct captions |
| OrdersPage.UnknownPaymentStatusShowsPending | src/app/orders/page.tsx:145 | a string naming no payment status shows the Pending badge |
| FaqPage.Toggled | src/app/faq/page.tsx:193 | opens the id iff it is not the open one; otherwise closes |
| FaqPage.ToggleTwice | src/app/faq/page.tsx:197-199 | toggling twice restores the state iff nothing or that id was open; with another id open it ends closed |
| FaqPage.FaqState.constructor | src/app/faq/page.tsx:22-24 | empty search, nothing expanded |
| FaqPage.FaqState.ToggleCategory | src/app/faq/page.tsx:192-195 | the category toggles and the open question always closes |
| FaqPage.FaqState.ToggleQuestion | src/app/faq/page.tsx:197-199 | the question toggles |
| FaqPage.FaqState.SetSearchTerm | src/app/faq/page.tsx:245 | the search box sets the term |
| FaqPage.NarrowAll | src/app/faq/page.tsx:201-205 | one category per category, each narrowed to its matching questions |
| FaqPage.FilteredCategories | src/app/faq/page.tsx:201-207 | exactly the narrowed categories that keep a question, every kept question matching, in order |
| FaqPage.EmptySearchKeepsEverything | src/app/faq/page.tsx:201-207 | an empty search keeps every non-empty category with all its questions |
| FaqPage.NarrowingKeepsOrder | src/app/faq/page.tsx:202-205 | a search keeps a category's id, title and colour and shows an order-preserving subsequence of its questions |
| FaqPage.GetColorClass | src/app/faq/page.tsx:209-219 | a colour in the table gets its classes; any other gets gray |
| FaqPage.GrayExactlyForUnknownColors | src/app/faq/page.tsx:209-219 | the gray classes appear iff the colour is outside the table |
| AdminNewProduct.WithoutIsSplice | src/app/admin/products/new/page.tsx:86-88 | removing at an index in range drops exactly that row and keeps the others in order; out of range, nothing changes |
| AdminNewProduct.RemoveButtonKeepsARow | src/app/admin/products/new/page.tsx:268 | with the remove button shown (more than one row), a removal leaves at least one row |
| AdminNewProduct.AddImageKeepsPositions | src/app/admin/products/new/page.tsx:98-100 | adding an image keeps every position equal to its index |
| AdminNewProduct.RemoveImageShiftsPositions | src/app/admin/products/new/page.tsx:102-104 | removing any image but the last leaves positions that no longer match the indices |
| AdminNewProduct.NewProductForm.constructor | src/app/admin/products/new/page.tsx:33-44 | the initial form: blank fields, active, one blank variant and one blank image at position 0 |
| AdminNewProduct.NewProductForm.ChangeInput | src/app/admin/products/new/page.tsx:67-72 | one field of the form takes the new value |
| AdminNewProduct.NewProductForm.ChangeVariant | src/app/admin/products/new/page.tsx:74-80 | only the variant at the index changes, by the edit |
| AdminNewProduct.NewProductForm.AddVariant | src/app/admin/products/new/page.tsx:82-84 | one blank variant is appended |
| AdminNewProduct.NewProductForm.RemoveVariant | src/app/admin/products/new/page.tsx:86-88 | the variants become Without of the old ones |
| AdminNewProduct.NewProductForm.ChangeImage | src/app/admin/products/new/page.tsx:90-96 | only the image at the index changes, by the edit |
| AdminNewProduct.NewProductForm.AddImage | src/app/admin/products/new/page.tsx:98-100 | a blank image whose position is the old length is appended |
| AdminNewProduct.NewProductForm.RemoveImage | src/app/admin/products/new/page.tsx:102-104 | the images become Without of the old ones |
| AdminNewProduct.ChangeTouchesOneField | src/app/admin/products/new/page.tsx:74-80 | a change keeps the length and every other row, and every field of the edited row except the one set |
| AdminNewProduct.PayloadVariants | src/app/admin/products/new/page.tsx:114-115 | exactly the variants with an SKU and positive stock, in order |
| AdminNewProduct.PayloadImages | src/app/admin/products/new/page.tsx:116 | exactly the images with a URL, in order |
| AdminNewProduct.MakePayload | src/app/admin/products/new/page.tsx:111-117 | the sale price is absent iff blank, otherwise parsed; the price is parsed; the other fields are copied |
| AdminNewProduct.BlankRowsAreNotSent | src/app/admin/products/new/page.tsx:33-44 | the untouched form submits no variant and no image |

## Left out

- JSX rendering, styling, layout, icons and the static pages: they hold no logic beyond the badge and colour tables modelled here.
- Prisma, NextAuth and `getServerSession`: replaced by the `Database` object and an `Option<Id>` session user. The `include` joins are reduced to the row values the handlers read.
- HTTP plumbing and `request.json()`: a request is a datatype and a reply is `Reply<T>` with a status code.
- Timers, `Date.now` and `Math.random`: delays are instantaneous (the checkout's two-second processing is split into `PaymentSubmit` and `CompleteProcessing`), and times and random numbers are parameters.
- Floating point and `toFixed(2)`: money is an exact `real`.
- `parseInt`, `parseFloat` and `new Date(...)` on strings: numbers arrive parsed (the admin form takes `parseFloat` as a function parameter), and order dates are milliseconds.
- Unicode case mapping: `toLowerCase`, `toUpperCase` and `mode: "insensitive"` map only ASCII letters.
- Concurrency: requests run one at a time, so two orders racing on the same stock are not modelled.
- JavaScript object lookups of inherited keys such as "constructor": the badge and colour tables are Dafny maps, so a status or colour named like an `Object` prototype member falls back like any other unknown key.
- Foreign keys of reviews on products, and of order lines on variants: the routes do not check them and the model does not enforce them.
- An explicit `null` review comment and an absent one are both `None`.
- The hard-coded mock data of the cart, shop, orders and FAQ pages enters through `Load` or function arguments; only the checkout's built-in cart is a constant, because its total is proved.
- The admin submit's `fetch`, loading flag, alert and redirect, and its access-guard effect: these are network, UI and routing.
- The account and admin dashboards and the seed script: UI over hard-coded arrays and database I/O.
- AdminNewProduct.NewProductForm.ChangeVariant: requires an index in range, because the form only calls it for a shown row; an out-of-range index in the source would write a sparse array entry.
- AdminNewProduct.NewProductForm.ChangeImage: requires an index in range, for the same reason.
- AuthConfig.JwtCallback: the library sets `token.sub` to the user's id before the callback; the model passes the subject to the token's constructor instead.
- CartApi.GetCart: a missing cart for an unregistered session user fails the insert's foreign key, modelled as the 500 reply; other database errors are not modelled.
- OrdersApi.PlaceOrder: a bank transfer without `paymentDetails` throws when its fields are read, modelled as the 500 reply; other database errors are not modelled.
- ProductsApi.ListProducts: a negative `limit` is passed to the database as a negative `take`, which Prisma reads from the end of the ordered rows; the model follows that documented behaviour (`ProductsApi.WindowFromEnd`), and a non-numeric `page` or `limit` (NaN) is not modelled.
- CartApi.FindLine: an explicit JSON `null` productVariantId is modelled like an absent one and matches any line of the product; Prisma would match `null` only against lines without a variant.
- CartApi.AddToCart: a request without `quantity` cannot be expressed; the route has no default for it.
- AddressesApi.CreateAddress: a request without `type` cannot be expressed; the route's `updateMany` would then clear the user's defaults of every type.
- CategoriesApi.ActiveByName: `orderBy: { name: "asc" }` is modelled as character-code order; the database's collation decides the real order (a common en_US collation puts "apple" before "Banana").
- Common.SortBy: an insertion sort, so rows with equal keys (orders, reviews, addresses or products with the same `createdAt`) keep their table order; the database leaves the order of such ties unspecified.
- CheckoutPage.IsEmail: the browser's check follows the ASCII grammar of the HTML standard; the conversion of internationalized domain names to punycode that some browsers apply first is not modelled.
- Db.Database.Valid: category and review ids are not bounded by the id counter, since no contract relies on their freshness.
