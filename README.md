# TechStore storefront client — a Dafny model

This project models the client-side logic of the TechStore React storefront:

- **Session store** — the `token` / `user` pair in the browser's storage and the calls that write, read and clear it.
- **Axios interceptors** — the request side attaches the bearer token; the response side handles a 401.
- **Authentication provider** — the in-memory `user`, `loading` and `error` state.
- **Cart** — the cart endpoints and two mirrors of the server's cart: the cart provider and the cart page.
- **Checkout page** — a three-step machine that builds the order payload.
- **Orders** — the orders list, status vocabulary, aggregates and cancellation.
- **Catalogue** — filtering, sorting and category listing.

How the model is built:

- Each source file is one Dafny module. State the source updates in place is a `class` whose methods carry `modifies` clauses. Pure expressions are functions, each with a lemma for its properties.
- The network is a parameter. Every backend call is replaced by the reply the server gives (`Http.Reply`): the response body, or an axios error with an optional status and error body.
- `localStorage` is a class over `map<string, string>`.
- `JSON.stringify` / `JSON.parse` of the user are a pair of functions on text. Parsing may fail, and the pair is proved to be an exact inverse in both directions.
- `window.location` is a returned redirect flag or path. `alert` / `confirm` are a returned message or a boolean input.
- Money is in integer cents: the shipping threshold of 100.00 is 10000, and the price bands are 10000 / 50000 / 100000.

Files:

- `wrappers.dfy` — Option and Result.
- `http.dfy` — reply shapes and the shared rethrow pattern.
- `storage.dfy` — the browser store.
- `user_json.dfy` — the user snapshot encoding.
- `config.dfy` — the axios interceptors.
- `auth.dfy` and `auth_context.dfy` — the session calls and the authentication provider.
- `cart_api.dfy`, `cart_context.dfy` and `cart_page.dfy` — the cart endpoints, the cart provider and the cart page.
- `checkout.dfy` — the checkout page.
- `orders_api.dfy` and `orders_page.dfy` — the order endpoints and the orders page.
- `sequences.dfy` — `filter` and subsequences.
- `products_api.dfy` and `products_page.dfy` — the catalogue endpoints and the catalogue page.

Quirks of the code are modelled as written:

- Cart lines are read as `item.productId` on the cart page and in `isProductInCart`, but as `item.product` on the checkout page. A line is therefore a record with both properties optional, and reading through a missing one is the TypeError case.
- The cart provider's `clearCart` drops its cart. The cart page's `handleClearCart` stores whatever the server answered.
- `cartAPI` (imported by the cart provider) and `ordersAPI` (imported by the checkout page) are not exported by their modules. Their calls are oracles with the contract the callers assume.
- Neither the cart provider nor the checkout page is mounted by `App.jsx` (`src/App.jsx:11-30`). Both are modelled as written.
- A 401 clears the store but not the provider's `user`. Only the reload caused by the redirect signs the user out.
- The checkout page's entry guard depends on the cart, so it runs again when a successful order clears the cart and sends the visitor to `/cart`. The confirmation step stays on screen only when clearing the cart fails.

## Model

| member | source | states |
|---|---|---|
| Http.OrDefault | src/context/CartContext.jsx:57 | `x \|\| fallback` on an optional string: the value when it is non-empty, the fallback otherwise; never empty for a non-empty fallback |
| Http.Settle | src/api/auth.js:16-19 | the rethrow pattern: success exactly when the server answered; the body unchanged; else the server's error body, or `{ message: fallback }` when none arrived |
| BrowserStorage.SessionRemoved | src/api/auth.js:44-48 | both session keys absent afterwards, every other key kept with its value, no key added |
| BrowserStorage.Storage.GetItem | src/api/auth.js:52-53 | present exactly when the key is stored, with the stored value |
| BrowserStorage.Storage.SetItem | src/api/auth.js:11 | the key maps to the value, nothing else changes |
| BrowserStorage.Storage.RemoveItem | src/api/auth.js:46 | only that key is removed |
| UserJson.CountHashes | src/api/auth.js:61 | the length of the run of `#` at the front of a text: every counted character is `#` and the next one is not |
| UserJson.CountHashesOfEncoded | src/api/auth.js:61 | a length prefix of n is read back as n whatever follows it |
| UserJson.DecodeEncodedField | src/api/auth.js:61 | one encoded field is read back exactly, leaving the rest untouched |
| UserJson.DecodedFieldIsEncoded | src/api/auth.js:61 | whatever a field read accepts is exactly an encoded field followed by the rest |
| UserJson.DecodeEncodedFields | src/api/auth.js:61 | a run of encoded fields is read back field for field |
| UserJson.DecodedFieldsAreEncoded | src/api/auth.js:61 | whatever the fields read accepts is exactly the encoding of the fields it returns |
| UserJson.ParseStringify | src/api/auth.js:32 | a stringified user is never empty text, and parsing it gives back the same user |
| UserJson.ParseOnlyAcceptsStringified | src/api/auth.js:61 | the only text that parses to a user is that user's stringified form |
| Config.AttachToken | src/api/config.js:16-19 | with a truthy stored token the header becomes `Bearer <token>`; otherwise the headers are unchanged |
| Config.Intercept | src/api/config.js:29-51 | the reply reaches the caller unchanged; a 401 removes both keys and any other reply leaves the store alone; a redirect is requested exactly on a 401 away from `/login` and `/register` |
| Auth.CurrentUser | src/api/auth.js:58-68 | None without a snapshot; None on a non-empty snapshot only when it is corrupt; otherwise a user whose stringified form is the stored text |
| Auth.IsAuthenticated | src/api/auth.js:51-55 | holds only when both keys are stored; since it looks at the keys alone, an authenticated store yields a current user exactly when its snapshot is not corrupt |
| Auth.StoreSession | src/api/auth.js:9-19 | resolves or rethrows like the rethrow pattern with "Error de conexión"; both keys written exactly when the reply carries `success`, otherwise the store is unchanged |
| Auth.RegisterUser | src/api/auth.js:4-21 | the same, and a store with both keys or neither keeps that property |
| Auth.LoginUser | src/api/auth.js:24-41 | the same, and a store with both keys or neither keeps that property |
| Auth.LogoutUser | src/api/auth.js:44-48 | both keys removed, nothing else; not authenticated afterwards |
| Auth.GetCurrentUser | src/api/auth.js:58-68 | returns the parsed snapshot or None; a corrupt snapshot clears both keys, otherwise the store is unchanged |
| Auth.VerifyToken | src/api/auth.js:76-85 | the server's answer with the store unchanged, or `{ valid: false }` with both keys removed on any error |
| Auth.CurrentUserAfterLogin | src/api/auth.js:29-33 | after a stored login, reading the user back gives the user the server sent; the store is authenticated exactly when the token is non-empty; both keys are present |
| Auth.LogoutIdempotent | src/api/auth.js:44-55 | logging out twice equals logging out once; afterwards nobody is authenticated and there is no current user |
| AuthContext.FailureMessage | src/context/AuthContext.jsx:45-51 | the error text of a refused or failed sign-in: the server's message or the "rejected" default when it answered; when the call threw, the error body's message or the "failed" default, and "Error de conexión" when no body arrived; never empty |
| AuthContext.AuthProvider.IsAuthenticated | src/context/AuthContext.jsx:97 | the provider reports signed in exactly while it holds a user in memory (`!!user`) |
| AuthContext.AuthProvider.InitAuth | src/context/AuthContext.jsx:13-31 | when the store is authenticated `user` becomes the stored user (None if corrupt, which also clears the store); otherwise `user` is unchanged; `loading` ends false |
| AuthContext.AuthProvider.SignIn | src/context/AuthContext.jsx:33-56 | what login and register share: with `success` the session is stored and `user` set; otherwise `user` is unchanged and `error` holds the returned message; `loading` ends false |
| AuthContext.AuthProvider.Login | src/context/AuthContext.jsx:33-56 | as SignIn with "Error en el login" / "Error al iniciar sesión" |
| AuthContext.AuthProvider.Register | src/context/AuthContext.jsx:58-81 | as SignIn with "Error en el registro" / "Error al registrarse" |
| AuthContext.AuthProvider.Logout | src/context/AuthContext.jsx:83-88 | store cleared, `user` and `error` reset, `loading` untouched; not authenticated afterwards |
| AuthContext.Boot | src/context/AuthContext.jsx:8-31 | a freshly mounted provider holds the stored user exactly when the store is authenticated, and ends not loading |
| AuthContext.UnauthorizedThenReload | src/api/config.js:38-48 | a 401 clears the store but leaves the mounted provider's `user`; the page reloads exactly when the interceptor redirects, and the provider mounted by that reload is signed out |
| CartApi.RequestOf | src/api/cart.js:17-23 | add and update send `{ productId, quantity }` with the add quantity defaulting to 1; remove targets `/cart/remove/<id>` |
| CartApi.Call | src/api/cart.js:4-72 | each wrapper resolves with the body, or rethrows the error body or its own non-empty default message |
| CartApi.SumQuantities | src/api/cart.js:78 | 0 for no lines and a single line's own quantity (with SumQuantitiesAppend this fixes the sum); at least the line count when every quantity is positive, non-negative when none is negative |
| CartApi.SumQuantitiesAppend | src/api/cart.js:78 | the count of two runs of lines is the sum of their counts |
| CartApi.CartItemCount | src/api/cart.js:75-85 | the sum of the line quantities; 0 without items; 0 on any failure |
| CartApi.FindProductTrue | src/api/cart.js:91 | the `some` scan finds the product exactly when a line carries it under `productId` and every earlier line is well shaped |
| CartApi.IsProductInCart | src/api/cart.js:88-98 | true exactly when the fetch succeeded, items exist and the scan reaches a matching line; false otherwise, never throwing |
| CartContext.ErrorMessage | src/context/CartContext.jsx:57 | the server's message when there is a non-empty one, else exactly the fallback; never empty |
| CartContext.Failed | src/context/CartContext.jsx:55-58 | a failed outcome that always carries a message |
| CartContext.LastAnswerWins | src/context/CartContext.jsx:47-96 | after any run of mutations the mirror equals the cart of the last successful answer |
| CartContext.AllFailedKeepsStart | src/context/CartContext.jsx:54-58 | a run of failed mutations leaves the mirror as it was |
| CartContext.CartProvider.GetTotalItems | src/context/CartContext.jsx:116-118 | the server's `totalItems`, 0 without a cart |
| CartContext.CartProvider.GetTotalPrice | src/context/CartContext.jsx:120-122 | the server's `totalPrice`, 0 without a cart |
| CartContext.CartProvider.LoadCart | src/context/CartContext.jsx:34-45 | the server's cart on success, none on any error, never a stale value; `loading` ends false |
| CartContext.CartProvider.SyncWithAuth | src/context/CartContext.jsx:25-31 | signing in loads the cart, signing out drops it |
| CartContext.CartProvider.AddToCart | src/context/CartContext.jsx:48-62 | success takes the server's cart and reports "Producto agregado al carrito"; failure keeps the cart and reports the error; `loading` ends false |
| CartContext.CartProvider.UpdateQuantity | src/context/CartContext.jsx:65-79 | success takes the server's cart; failure keeps it and reports the error |
| CartContext.CartProvider.RemoveFromCart | src/context/CartContext.jsx:82-96 | success takes the server's cart; failure keeps it and reports the error |
| CartContext.CartProvider.ClearCart | src/context/CartContext.jsx:99-113 | success drops the cart, after which both totals are 0; failure keeps it |
| CartContext.CartProvider.UpdateAll | src/context/CartContext.jsx:65-79 | a run of updates leaves the mirror at the last successful answer, with one outcome per call that succeeds exactly when its call did |
| CartPage.Subtotal | src/pages/CartPage.jsx:83-85 | the sum over the lines of price times quantity: 0 for no lines, defined only on well-shaped lines |
| CartPage.SubtotalOfLine | src/pages/CartPage.jsx:84 | one line contributes exactly its product's price times its quantity |
| CartPage.ReduceIsSubtotal | src/pages/CartPage.jsx:83-85 | the left-to-right `reduce` from a running total adds that total to the sum over the lines, and throws exactly when the sum is undefined |
| CartPage.SubtotalDefined | src/pages/CartPage.jsx:83-85 | the reduce completes exactly when every line carries `productId`, and is non-negative for non-negative prices and quantities |
| CartPage.SubtotalAppend | src/pages/CartPage.jsx:83-85 | the subtotal of two runs of lines is the sum of theirs |
| CartPage.CalculateTotal | src/pages/CartPage.jsx:81-86 | 0 without a cart or items; otherwise the `reduce` equals the sum over the lines of price times quantity, defined exactly when the lines are well shaped |
| CartPage.Shipping | src/pages/CartPage.jsx:199 | free exactly when the subtotal is above 100.00, so 100.00 itself pays; otherwise 10.00 |
| CartPage.Total | src/pages/CartPage.jsx:204 | the subtotal plus the shipping line, so between the subtotal and the subtotal plus the fee, and equal to the subtotal exactly above the threshold |
| CartPage.ShowsEmpty | src/pages/CartPage.jsx:98 | whenever the empty view is shown the subtotal is 0 |
| CartPage.DecrementDisabled | src/pages/CartPage.jsx:158 | disabled exactly while updating or at quantity 1 or below, so an enabled decrement always sends a quantity of at least 1 |
| CartPage.Page.FetchCart | src/pages/CartPage.jsx:24-34 | the server's cart on success, the prior value on failure; `loading` ends false |
| CartPage.Page.Open | src/pages/CartPage.jsx:15-22 | signed-out visitors are sent to `/login` with nothing fetched; others fetch |
| CartPage.Page.HandleUpdateQuantity | src/pages/CartPage.jsx:36-49 | below 1 nothing is sent and nothing changes; otherwise the update is sent, the server's cart taken or the old one kept with an alert; `updating` ends false |
| CartPage.Page.HandleRemoveItem | src/pages/CartPage.jsx:51-64 | nothing is sent without confirmation; otherwise as the update |
| CartPage.Page.HandleClearCart | src/pages/CartPage.jsx:66-79 | nothing is sent without confirmation; success stores the server's answer, failure keeps the cart |
| CheckoutPage.TrimStart | src/pages/CheckoutPage.jsx:54 | a suffix whose first character is not white space, all removed characters being white space |
| CheckoutPage.TrimEnd | src/pages/CheckoutPage.jsx:54 | a prefix whose last character is not white space, all removed characters being white space |
| CheckoutPage.Trim | src/pages/CheckoutPage.jsx:54 | neither end of the result is white space, it is no longer than the input, and a value without white space is kept as it is |
| CheckoutPage.TrimEmptyIffAllSpace | src/pages/CheckoutPage.jsx:54 | a value trims to empty exactly when every character is white space |
| CheckoutPage.Set | src/pages/CheckoutPage.jsx:44-50 | the named field takes the value and every other field is kept |
| CheckoutPage.AllFilled | src/pages/CheckoutPage.jsx:54 | `every` holds exactly when no required field trims to empty |
| CheckoutPage.ValidateStep1 | src/pages/CheckoutPage.jsx:52-55 | true exactly when none of the six shipping fields is blank |
| CheckoutPage.ValidateStep2 | src/pages/CheckoutPage.jsx:57-60 | true exactly when none of the four payment fields is blank |
| CheckoutPage.StepsAreIndependent | src/pages/CheckoutPage.jsx:52-60 | editing a payment field cannot change step 1's validity, and vice versa |
| CheckoutPage.InitialForm | src/pages/CheckoutPage.jsx:17-30 | name and e-mail come from the signed-in user, every other field starts empty |
| CheckoutPage.BuildLines | src/pages/CheckoutPage.jsx:76-80 | one line per cart line, in order, with the product's id, the quantity and the product's price; fails exactly when a line lacks `product` |
| CheckoutPage.OrderedUnitsMatchCart | src/pages/CheckoutPage.jsx:76-80 | the order asks for exactly as many units as the cart holds |
| CheckoutPage.BuildOrder | src/pages/CheckoutPage.jsx:75-90 | the payload exists exactly when the cart, its items and every line's product do; it carries those lines, the shipping fields, "credit_card" and the provider's total |
| CheckoutPage.EntryRedirect | src/pages/CheckoutPage.jsx:32-42 | `/login` when signed out; otherwise `/cart` unless the cart has items; no redirect exactly when signed in with a non-empty cart |
| CheckoutPage.NextDisabled | src/pages/CheckoutPage.jsx:377 | disabled while submitting or while the current step does not validate |
| CheckoutPage.Page.HandleInputChange | src/pages/CheckoutPage.jsx:44-50 | only the named field changes; step and loading untouched |
| CheckoutPage.Page.Back | src/pages/CheckoutPage.jsx:366-368 | offered on the payment step only (the confirmation step returns early at lines 114-115); goes back to step 1, form kept |
| CheckoutPage.Page.HandlePlaceOrder | src/pages/CheckoutPage.jsx:70-108 | sends the payload built from the cart; `success` clears the provider's cart and moves to step 3, and once the clear succeeds the entry guard (lines 32-42, re-run on the cart change) redirects to `/cart`; refusal alerts with the server's message, an error or a missing product alerts "Error al procesar el pedido…", both staying on the step; the provider's `loading` is false after a clear and untouched otherwise; `loading` ends false |
| CheckoutPage.Page.HandleNextStep | src/pages/CheckoutPage.jsx:62-68 | from step 1 to 2 only when step 1 validates, with the page's and the provider's `loading` and the cart kept; from step 2 an order is placed only when step 2 validates, with the alert, the cleared cart and the provider's `loading` of placing an order, reaching step 3 only on success; otherwise nothing changes |
| OrdersApi.GetUserOrders | src/api/orders.js:19-37 | an array passes through; an object's truthy `orders` is returned; any other value is returned unchanged; `null` and failures rethrow the error body or "Error al obtener órdenes" |
| OrdersApi.CreateOrder | src/api/orders.js:4-16 | the body on success, else the error body or "Error al crear orden" |
| OrdersApi.CancelOrder | src/api/orders.js:53-63 | the body on success, else the error body or "Error al cancelar orden" |
| OrdersPage.StatusOf | src/pages/OrdersPage.jsx:93-124 | a recognised status name is the name of the status it denotes |
| OrdersPage.StatusNameRoundTrip | src/pages/OrdersPage.jsx:93-124 | each of the five statuses is recognised from its own name |
| OrdersPage.StatusColor | src/pages/OrdersPage.jsx:93-102 | the gray classes exactly for unknown statuses |
| OrdersPage.StatusText | src/pages/OrdersPage.jsx:104-113 | the raw status for unknown ones, a translated label otherwise |
| OrdersPage.StatusIcon | src/pages/OrdersPage.jsx:115-124 | 📦 exactly for unknown statuses |
| OrdersPage.CanCancelOrder | src/pages/OrdersPage.jsx:126-128 | true exactly for pending and processing orders |
| OrdersPage.MarkCancelled | src/pages/OrdersPage.jsx:56 | same length and order; exactly the orders with the id become cancelled, all others unchanged |
| OrdersPage.DeliveredCount | src/pages/OrdersPage.jsx:247 | at most the number of orders, and equal to it exactly when every order is delivered |
| OrdersPage.InProcessCount | src/pages/OrdersPage.jsx:253 | at most the number of orders, and 0 exactly when no order is pending or processing |
| OrdersPage.TotalSpent | src/pages/OrdersPage.jsx:259 | 0 for no orders and a single order's amount, a missing amount counting as 0 (with AggregatesAppend this fixes the sum); never negative when no amount is |
| OrdersPage.AggregatesAppend | src/pages/OrdersPage.jsx:247-259 | each of the three figures of two lists put together is the sum of their figures |
| OrdersPage.CountsWithinTotal | src/pages/OrdersPage.jsx:242-255 | delivered plus in-process never exceeds the order count |
| OrdersPage.CancelEffect | src/pages/OrdersPage.jsx:56 | cancelling keeps the length and the total spent, never adds to in-process or delivered, and leaves no matching order cancellable |
| OrdersPage.CancelUnknownIsNoOp | src/pages/OrdersPage.jsx:56 | cancelling an id no order has changes nothing |
| OrdersPage.Page.FetchOrders | src/pages/OrdersPage.jsx:25-44 | a normalised array is stored, any other value becomes `[]`; on failure `[]` and the message or "Error al cargar los pedidos"; `loading` ends false |
| OrdersPage.Page.Open | src/pages/OrdersPage.jsx:16-23 | signed-out visitors go to `/login` with nothing fetched and no field changed; signed-in visitors get exactly the fetch's orders and error, with the in-progress marker kept and `loading` false |
| OrdersPage.Page.HandleCancelOrder | src/pages/OrdersPage.jsx:46-65 | nothing is sent without confirmation; success marks the matching orders cancelled, failure keeps the list and reports the error; the in-progress marker is cleared either way |
| Sequences.Filter | src/api/products.js:83 | every kept element is in the input and accepted; each accepted value is kept as often as it occurs in the input, and no other value appears |
| Sequences.FilterIsSubsequence | src/pages/ProductsPage.jsx:113 | `filter` returns an order-preserving subsequence of its input |
| Sequences.FilterAppend | src/pages/ProductsPage.jsx:113 | filtering distributes over concatenation |
| Sequences.FilterKeepsAll | src/pages/ProductsPage.jsx:113 | a filter accepting everything returns its input |
| ProductsApi.GetProducts | src/api/products.js:4-23 | an object passes through; an array is wrapped as `{ products }`; any other value is returned unchanged; `null` and failures rethrow the error body or "Error al obtener productos" |
| ProductsApi.Pick | src/api/products.js:82 | `response.products \|\| response \|\| []`: a truthy `products`, else the response itself when truthy (even an object without `products`), else the empty list |
| ProductsApi.GetFeaturedProducts | src/api/products.js:78-90 | exactly the featured products, each as often as in the catalogue, as a subsequence of it; the list call's error rethrown; a non-array makes `filter` throw |
| ProductsApi.FeaturedAgreesAcrossShapes | src/api/products.js:11-16 | a bare array and an envelope around it give the same featured list |
| ProductsPage.LowerChar | src/pages/ProductsPage.jsx:115 | each ASCII or Latin-1 capital becomes the small letter 32 code points above it; every other character is kept |
| ProductsPage.Lower | src/pages/ProductsPage.jsx:115 | lower-cases character by character, keeping the length |
| ProductsPage.Contains | src/pages/ProductsPage.jsx:115 | the empty search text occurs in every name, and a match needs a name at least as long as the text |
| ProductsPage.ContainsIff | src/pages/ProductsPage.jsx:115 | `includes` holds exactly when the text occurs at some position |
| ProductsPage.InPriceBand | src/pages/ProductsPage.jsx:117-134 | "all" and any value other than the four bands accept every price |
| ProductsPage.PriceBandsCover | src/pages/ProductsPage.jsx:120-132 | every price lies in some band, and two bands both accept a price only at 500.00 |
| ProductsPage.MatchesSearch | src/pages/ProductsPage.jsx:115 | an empty search, or the lower-cased search text occurring at some position of the lower-cased name |
| ProductsPage.Matches | src/pages/ProductsPage.jsx:113-137 | with category, search and band all cleared every product matches |
| ProductsPage.FilteredProducts | src/pages/ProductsPage.jsx:113-137 | an order-preserving subsequence holding exactly the products matching category, search and price band, each as often as in the catalogue |
| ProductsPage.ClearedFiltersShowAll | src/pages/ProductsPage.jsx:156-163 | under the default filters every product is shown, in catalogue order |
| ProductsPage.LexCompare | src/pages/ProductsPage.jsx:150 | -1, 0 or 1, and 0 exactly for equal names |
| ProductsPage.LexCompareAntisymmetric | src/pages/ProductsPage.jsx:150 | swapping the names negates the name comparison |
| ProductsPage.Compare | src/pages/ProductsPage.jsx:139-152 | any `sortBy` other than the four numeric orders compares names, tying exactly on equal names |
| ProductsPage.CompareAntisymmetric | src/pages/ProductsPage.jsx:139-152 | every comparator is antisymmetric |
| ProductsPage.Insert | src/pages/ProductsPage.jsx:139 | adds exactly one element to the multiset |
| ProductsPage.InsertKeepsSorted | src/pages/ProductsPage.jsx:139-152 | inserting into a sorted list keeps it sorted |
| ProductsPage.Sort | src/pages/ProductsPage.jsx:139-152 | a permutation of its input with no adjacent pair out of order for the comparator |
| ProductsPage.SortedProducts | src/pages/ProductsPage.jsx:139-152 | a permutation of the filtered list, sorted for the chosen order |
| ProductsPage.KeyChain | src/pages/ProductsPage.jsx:139-152 | adjacent order along a numeric key extends to every pair |
| ProductsPage.SortedByPrice | src/pages/ProductsPage.jsx:141-144 | `price-low` is nondecreasing and `price-high` nonincreasing in price over the whole list |
| ProductsPage.FirstIndex | src/pages/ProductsPage.jsx:154 | the first position of a value: it holds the value and no earlier position does |
| ProductsPage.FirstIndexUnique | src/pages/ProductsPage.jsx:154 | any position holding a value with no earlier occurrence is its first position |
| ProductsPage.Distinct | src/pages/ProductsPage.jsx:154 | no value twice, and exactly the values of the input |
| ProductsPage.DistinctFirstAppearance | src/pages/ProductsPage.jsx:154 | the distinct values keep the order of their first appearances |
| ProductsPage.CategoriesOf | src/pages/ProductsPage.jsx:154 | the `map` to categories: one entry per product, in catalogue order |
| ProductsPage.Categories | src/pages/ProductsPage.jsx:154 | every category exactly once, in first-appearance order |
| ProductsPage.ListedCategoryShowsProducts | src/pages/ProductsPage.jsx:113-114 | choosing a listed category shows at least one product, and only products of that category unless its name is empty |
| ProductsPage.Listed | src/pages/ProductsPage.jsx:40-41 | the picked value when it is an array, otherwise `[]` |
| ProductsPage.Page.ClearFilters | src/pages/ProductsPage.jsx:156-163 | the default filters, under which every product is shown (the screen holds exactly the catalogue, re-sorted by name); catalogue, flags, count, `loading` and `error` kept |
| ProductsPage.Page.FetchProducts | src/pages/ProductsPage.jsx:30-49 | the normalised array or `[]`; on failure `[]` and the message or "Error al cargar los productos"; `loading` ends false |
| ProductsPage.Page.FetchCartItemCount | src/pages/ProductsPage.jsx:51-58 | the count is always stored, since the count call never throws |
| ProductsPage.Page.Open | src/pages/ProductsPage.jsx:23-28 | the catalogue is always fetched, giving the normalised list and no error, or `[]` and the message or "Error al cargar los productos"; the cart count only when signed in; filters and in-progress flags kept |
| ProductsPage.Page.HandleAddToCart | src/pages/ProductsPage.jsx:60-83 | signed out: only an alert, nothing sent and no field changed; otherwise one unit is added, the count is refreshed on success, and the product's in-progress flag is false afterwards; catalogue, filters, `loading` and `error` kept |

## Left out

- JSX rendering, Tailwind classes, the DOM-built toast notifications and their timers. Toasts and alerts are returned as values.
- `src/components/Navbar.jsx`, `src/App.jsx` and `src/pages/HomePage.jsx`. They hold only links, route wiring, and a fetch sliced to six products for display.
- The axios transport, base URL, timeout and request-interceptor error path (`src/api/config.js:4-10, 22-25`). Every call is a reply parameter. The replies handed to the wrappers are taken as already having passed the response interceptor, which is modelled on its own.
- `console.log` / `console.error` output.
- Effects that run again after a state change are not steps of their own. `HandlePlaceOrder` states the redirect that the checkout guard's next run takes.
- Asynchronous interleaving and stale closures: every handler is one atomic step. This includes `handleCancelOrder` mapping over the `orders` captured when it started.
- The admin wrappers `createProduct`, `updateProduct`, `deleteProduct`, `updateOrderStatus` and `getOrderStats`, and `getProductById` and `getOrderById`. They follow the same rethrow pattern with no other logic.
- `getToken` (`src/api/auth.js:71-73`), a bare read of the store.
- `Number(quantity)` in `addToCart` / `updateCartItem`: quantities are already integers in the model.
- Floating-point prices, `toFixed` and `toLocaleString`: money is integer cents.
- The name sort: `localeCompare` is replaced by code-point lexicographic order.
- The `newest` sort: `createdAt` is an integer timestamp rather than a parsed date. `formatDate` is left out.
- ProductsPage.LowerChar: only ASCII and Latin-1 capitals are lower-cased; the rest of Unicode case mapping is not modelled.
- UserJson.Parse: every text that is not a stringified user counts as a parse failure. `JSON.parse` would accept any JSON value, such as `null` or a number, and return it without clearing the store.
- The status lookups of the orders page index a plain object, so a status such as `constructor` would hit an inherited property. The model treats such names as unknown.
- The `catch` of `initAuth` (`src/context/AuthContext.jsx:21-24`) is unreachable, because neither call it guards throws, so `InitAuth` has no error path.
- A reply with `success` is taken to carry `token` and `user`.
- The arguments the cart provider passes to the missing `cartAPI` calls are not modelled, only the replies.
- Editing the catalogue filters other than clearing them is a plain field assignment and is not modelled.
- The `Array.prototype.sort` call is modelled by a stable insertion sort. For these comparators any stable sort gives the same order, but that uniqueness is not proved.
