# Storefront logic, modelled in Dafny

This project models the logic of a React storefront for door locks. It is a small set of deterministic rules inside the page components and the API layer:

- **the cart**, an ordered list of line items, with:
  - two kinds of "add": merge-on-add in the application shell and on the product page, and append-always in the header;
  - the quantity edits, removal and the total;
- **the order request** the checkout page builds from the cart and its form, and the wholesale application the wholesale page builds from its form;
- **sessions and tokens**:
  - the two request interceptors that attach a bearer token;
  - the response interceptor that answers a 401 with one refresh and one retry;
  - `register`'s token storage;
  - the login page's role routing and storage writes, `checkAuth`, and the guard in front of the profile route;
- **view state**:
  - the 12-per-page slice of the product list, the "recently viewed" strip and the SALE badge;
  - the filter panel's state, its request URL and the rule for accepting a reply;
  - the "show all" window of the categories page.

Prices and quantities are integers. The browser's `localStorage` and `sessionStorage` are maps from string to string, and the storage keys are modelled exactly as the program spells them: `access_token`, `refresh_token`, `token` and `isLoggedIn` in the local store, and `accessToken` in the session store. The checkout page also reads an `accessToken` from the local store, a key nothing in the program writes there.

The HTTP server is abstract. A request's fate is given as a `Server` value: the reply to the request itself, the reply to the refresh POST, and the reply to the retry. axios's rule that only a 2xx status resolves is `Http.Settle`.

The files follow the program's structure:

- `Wrappers`: `Option`.
- `Js`: `slice`, `parseInt(s, 10)`, `${n}` for integers, and string truthiness.
- `Storage`: the two stores and a `Browser` class holding them.
- `Http`: the request config whose headers interceptors assign in place, replies, outcomes and the bearer header.
- `Cart`: the line-item operations shared by the pages.
- `App`, `Headers`, `Product`, `Order`, `Wholesale`, `Filter`, `Categories`: one module per component.
- `Api` (`src/api/api.ts`) and `SessionApi` (`src/api/axios.ts`): the two axios instances.
- `Login`: the login page.

The React state cells of the pure components become functions from the old value to the new one. The parts that update things step by step are classes with `modifies` clauses:

- the API client, which mutates the config's headers and local storage;
- the login page, with its loading flag and toasts;
- the filter page's fetch, which sets loading on, may replace the list, then sets loading off.

`Api.Client.Request` is proved against the pure specification `Api.Exchanged`, and the retry properties are stated about that specification.

Where the code and its design description disagree, the model follows the code:

- A failed refresh leaves the stored tokens in place.
- Concurrent 401s are not coalesced.
- The order builder accepts an empty cart.
- The checkout page's quantity editor accepts 0 and negative numbers, while the header's editor turns 0 and null into 1.

Several behaviours look unintended but are modelled as written:

- `UserClick` sends a user who holds an `access_token` to /login and everyone else to /profile.
- The checkout page's own header reads `Bearer null` when local storage has no `accessToken`.
- The login page stores `token`, while the route guard reads `accessToken` from the session store, so signing in never opens the guarded route (`Login.LoginPage.Login` ensures the guard's verdict is unchanged).
- The product card strikes through `newPrice`, the lower of the two prices.

## Model

| member | source | states |
|---|---|---|
| Js.Slice | src/pages/Product.tsx:92-95 | `slice` with non-negative bounds is the sub-list between the two bounds clipped to the length; an end before the start gives the empty list |
| Js.Show | src/pages/Filter.tsx:44 | an interpolated integer is its canonical decimal numeral: a leading '-' exactly when it is negative, digits only after that, no leading zero, and the digits' value is the magnitude |
| Js.ParseIntShow | src/pages/Wholesale.tsx:176 | `parseInt(…, 10)` reads back every integer written in decimal, whatever non-digit text follows |
| Js.ParseIntSkipsWhite | src/pages/Wholesale.tsx:176 | leading white space does not change what `parseInt` reads |
| Js.ParseInt | src/pages/Wholesale.tsx:176 | `parseInt(s, 10)` is NaN exactly when no digit follows the white space and the optional sign; what it reads otherwise is stated by `Js.ParseIntOfNumeral` |
| Js.ParseIntOfNumeral | src/pages/Wholesale.tsx:176 | white space, an optional sign, a run of digits (leading zeros allowed) and any tail not starting with a digit read as the signed value of the digits |
| Storage.GetItem | src/api/api.ts:21 | `getItem` gives the stored string exactly when the key is present, and null otherwise |
| Storage.Browser.SetLocal | src/api/api.ts:44 | `setItem` sets one key of the local store; the other keys and the session store are unchanged |
| Http.Settle | src/api/api.ts:32-35 | a reply resolves iff it has a 2xx status; a rejection carries the response iff one arrived |
| Http.Field | src/api/api.ts:43-44 | a body field as stored: its value, or "undefined" when the field is absent |
| Http.WithBearer | src/api/api.ts:21-25 | `Authorization: Bearer <t>` is set iff the token is a non-empty string; otherwise the headers are untouched; no other header changes |
| Http.OnRequestError | src/api/api.ts:27-29 | a request-setup error is rejected unchanged |
| Cart.CoverImage | src/components/Headers/index.tsx:169 | the first photo, or "/placeholder.jpg" when there is none or it is empty |
| Cart.Bump | src/App.tsx:45-49 | same length; lines with the id get quantity + 1; every other line is identical |
| Cart.SetQuantity | src/components/Headers/index.tsx:80-84 | same length and order; lines with the id get the new quantity; every other line is identical |
| Cart.Remove | src/components/Headers/index.tsx:86-88 | a line is kept iff it does not carry the id; no line with the id remains |
| Cart.RemoveAppend | src/components/Headers/index.tsx:86-88 | removal distributes over concatenation, so the kept lines keep their relative order |
| Cart.RemoveAbsent | src/components/Headers/index.tsx:86-88 | removing an id without a line changes nothing |
| Cart.SetQuantityKeepsIds | src/components/Headers/index.tsx:80-84 | a quantity edit keeps the ids in order, and with them one line per id |
| Cart.MergeAdd | src/App.tsx:41-54 | an id already present bumps only its line and keeps the length; a new id appends a quantity-1 line copying the other fields |
| Cart.ReAddKeepsOrder | src/App.tsx:46-49 | re-adding an id present neither moves a line nor changes the length |
| Cart.MergeAddKeepsUnique | src/App.tsx:41-54 | merge-add preserves one line per id |
| Cart.AddAllTally | src/App.tsx:39-54 | from the empty cart, any adds give one line per id, lines in first-add order, with quantity equal to the number of adds of that id |
| Cart.Reduce | src/components/Headers/index.tsx:90-93 | the left fold `reduce` performs; it equals the start plus `Cart.Sum` by `Cart.ReduceIsSum` |
| Cart.ReduceIsSum | src/components/Headers/index.tsx:90-93 | the left-fold `reduce` from any start equals the start plus the sum of price × quantity |
| Cart.Total | src/components/Headers/index.tsx:90-93 | `totalPrice` is the sum of price × quantity over the lines, and 0 for the empty cart |
| Cart.SumAppend | src/components/Headers/index.tsx:90-93 | the total of two carts laid end to end is the sum of their totals |
| Cart.SumBump | src/App.tsx:45-49 | bumping an id raises the total by the unit prices of its lines |
| Cart.MergeAddTotal | src/App.tsx:41-54 | with one line per id, an add raises the total by the price stored on the id's line, or by the new price for a new id |
| Cart.RemoveThenAdd | src/components/Headers/index.tsx:86-88 | removing an id then adding it again gives a fresh quantity-1 line at the end |
| App.PrivateRoute | src/App.tsx:33-36 | renders iff the session `accessToken` is a non-empty string; otherwise redirects to /login, replacing the entry |
| Headers.QuantityInput | src/components/Headers/index.tsx:422-425 | `value` or 1: null and 0 become 1, any other value stays; never 0 |
| Headers.QuantityChange | src/components/Headers/index.tsx:80-84 | the edit sets the lines with the id to `value` or 1 and keeps every other line, the length and the order |
| Headers.AddToCart | src/components/Headers/index.tsx:163-172 | always appends one quantity-1 line with the cover image, keeping the old lines as the prefix |
| Headers.AppendDuplicates | src/components/Headers/index.tsx:163-172 | appending an id already present breaks one-line-per-id, while merge-add keeps the length |
| Headers.BadgeCount | src/components/Headers/index.tsx:355 | the badge's count; what it counts is stated by `Headers.BadgeAfterAdds` |
| Headers.BadgeAfterAdds | src/components/Headers/index.tsx:355 | the badge counts lines: after merge-adds it shows the number of distinct ids added |
| Headers.UserClick | src/components/Headers/index.tsx:146-153 | /login iff `access_token` is a non-empty string, /profile otherwise |
| Product.AddToCart | src/pages/Product.tsx:126-148 | an id present bumps only its line; a new id appends `{id, name, price, quantity: 1, image}` with the cover image |
| Product.AddsKeepOneLinePerId | src/pages/Product.tsx:126-148 | from the empty initial cart every sequence of adds keeps one line per id |
| Product.Paginate | src/pages/Product.tsx:92-95 | page p ≥ 1 is products[12(p-1) .. 12p) clipped to the list, at most 12 items |
| Product.PagesAreContiguous | src/pages/Product.tsx:92-95 | pages 1..k laid end to end are the first min(12k, n) products, so pages are disjoint and contiguous |
| Product.PageOfIndex | src/pages/Product.tsx:92-95 | product i appears on page i/12 + 1 at position i mod 12 |
| Product.RecentlyViewed | src/pages/Product.tsx:207 | the strip shows the first min(4, n) products in order |
| Product.Card | src/pages/Product.tsx:214-266 | the SALE badge shows iff newPrice < price, exactly when the struck-through figure (newPrice) shows |
| Order.InitialCart | src/pages/Order.tsx:22-24 | the navigation state's cart, or the empty cart when absent |
| Order.TotalEffect | src/pages/Order.tsx:27-32 | the effect keeps the cart and sets the total to the sum of price × quantity |
| Order.Open | src/pages/Order.tsx:27-32 | once mounted, the total is the sum of price × quantity of the initial cart |
| Order.HandleInputNumberChange | src/pages/Order.tsx:34-44 | null leaves the page unchanged; a number sets the matching lines only, keeps length and order, and the total is recomputed |
| Order.OrderLines | src/pages/Order.tsx:48-51 | one `{lockId: id, amount: quantity}` per line, in cart order |
| Order.PaymentTypeOf | src/pages/Order.tsx:61 | WITH_CARD iff the payment field is "card" |
| Order.BuildOrder | src/pages/Order.tsx:46-67 | the request's lines mirror the cart; customer fields are passed on; missing city/branch/comment/promo code become ""; installation fills both flags |
| Order.SubmitAuthorization | src/pages/Order.tsx:69-76 | the header sent: the `access_token` bearer when that is set, otherwise `Bearer <accessToken>`, or "Bearer null" |
| Api.Client.InterceptRequest | src/api/api.ts:19-30 | assigns exactly the bearer of a non-empty stored `access_token` into the config's headers |
| Api.Exchanged | src/api/api.ts:32-55 | at most one refresh and one retry; refresh iff 401 with a non-empty `refresh_token`; on success the new token is stored and the retry carries it; otherwise storage is untouched and the first outcome stands |
| Api.OtherErrorsPassThrough | src/api/api.ts:34-53 | a non-401 reply or no reply settles unchanged, with no refresh call and storage untouched |
| Api.FailedRefreshKeepsTokens | src/api/api.ts:48-53 | a failed refresh rejects the original 401 and clears nothing |
| Api.Client.Request | src/api/api.ts:19-55 | the instance's storage, config headers, wire log and outcome are those of `Api.Exchanged`; the session store is unchanged |
| Api.Client.Register | src/api/api.ts:57-80 | both tokens are stored only on status 201; every rejection is rethrown as it is |
| SessionApi.InterceptRequest | src/api/axios.ts:10-21 | the config's headers gain exactly the bearer of a non-empty session `accessToken`, and the same config is returned |
| Login.RoleRoute | src/login/index.tsx:36-42 | ROLE_ADMIN routes to /admin and wins over ROLE_USER, which routes to /; neither gives no route |
| Login.CheckAuth | src/login/index.tsx:66-74 | redirects to /login iff `token` is missing or empty |
| Login.LoginPage.Login | src/login/index.tsx:18-64 | a 200 stores `token` and `isLoggedIn` before the role check; every other outcome stores nothing; each failure branch shows its own message; loading ends false |
| Login.SignedInPassesCheckAuth | src/login/index.tsx:31-32 | after a 200 with a non-empty token, `checkAuth` does not redirect |
| Wholesale.LockAmount | src/pages/Wholesale.tsx:176 | `parseInt(quantity, 10)` or 1: NaN and 0 become 1; never 0, possibly negative |
| Wholesale.Chosen | src/pages/Wholesale.tsx:177-178 | an option is chosen iff the services list exists and contains it |
| Wholesale.HandleSubmit | src/pages/Wholesale.tsx:170-179 | name, company and phone copied; lock id 1; the parsed amount; customLogo iff "logo", helpSetup iff "help" |
| Wholesale.ProductNotSent | src/pages/Wholesale.tsx:171-179 | the form's `product` field does not affect the request |
| Wholesale.LockAmountReadsNumeral | src/pages/Wholesale.tsx:176 | a non-zero numeral, followed by any non-digit text, is sent as that amount |
| Wholesale.LockAmountDefaultsToOne | src/pages/Wholesale.tsx:176 | "0", followed by any text that does not start with a digit, asks for one lock |
| Wholesale.LockAmountOfNonNumeral | src/pages/Wholesale.tsx:176 | text starting with neither a digit, a sign nor white space asks for one lock |
| Filter.WithSize | src/pages/Filter.tsx:35-37 | the chosen dimension takes the new value; the other two are unchanged |
| Filter.QueryParamsOfParams | src/pages/Filter.tsx:44 | any plain keys written as `&key=value` read back as those keys and values, and each value parses back to its number |
| Filter.FetchUrlParams | src/pages/Filter.tsx:44 | the query string reads back as startPrice, endPrice, a, b, c, in that order and nothing else |
| Filter.FetchUrl | src/pages/Filter.tsx:43-45 | the URL is the endpoint, '?', then a query whose parameters are startPrice = range[0], endPrice = range[1], a, b, c of the lock size, in that order |
| Filter.FilterPage.constructor | src/pages/Filter.tsx:19-27 | the initial state: range [100000, 250000], sizes 0, no products, not loading |
| Filter.FilterPage.OnPriceChange | src/pages/Filter.tsx:30-32 | the whole range is replaced and nothing else changes |
| Filter.FilterPage.OnLockSizeChange | src/pages/Filter.tsx:35-37 | the lock size becomes `Filter.WithSize` of the old one; nothing else changes |
| Filter.FilterPage.FetchProducts | src/pages/Filter.tsx:40-58 | loading is on while fetching and off afterwards; the list is replaced iff success is true and data is an array; an exception shows the error toast |
| Categories.Render | src/pages/Categories.tsx:73-74 | the first min(visibleCount, n) categories in order; the show-all button iff visibleCount < n |
| Categories.FirstRender | src/pages/Categories.tsx:19 | the first render shows the first min(8, n) categories, with the button iff n > 8 |
| Categories.HandleShowMore | src/pages/Categories.tsx:56-58 | the count it sets makes every category show, in order, and removes the button |

## Left out

- Rendering, layout, icons, carousels, translations and the static pages (home, about, payment, footer, not-found, profile view, error boundary). They are presentation only.
- The HTTP transport, `fetch`, react-query caching and the contact-form and application submissions. Replies are parameters (`Api.Server`, `Login.LoginReply`, `Filter.FetchReply`), and request bodies are not modelled.
- Concurrency: two requests failing with 401 at once each refresh on their own. The model is one request at a time.
- Console logging, `message` toasts other than the login page's and the filter's error toast, and navigation side effects beyond the route chosen.
- The price formatting helper in `src/util/index.ts`. It depends on `Intl.NumberFormat` and floating-point rendering.
- The product detail page's lookup by stringified id.
- `src/pages/filtrList.tsx`. It imports modules that are not part of this model.
- The profile and register pages. They are fetch-and-navigate wrappers; `register`'s storage effect is in `Api.Client.Register`.
- The categories page's guard for a reply that is not an array. `Categories.Render` assumes a list.
- Js.Show: does not model JavaScript's exponent notation for magnitudes of 10^21 and above, or fractional numbers; prices, sizes and page numbers are integers here.
- Js.ParseIntShow: `parseInt` is modelled on unbounded integers, without the precision loss of numbers beyond 2^53 or the result -0.
- Js.ParseIntOfNumeral: reads "-0" as 0 rather than JavaScript's -0; both are falsy, so `|| 1` treats them alike.
- Filter.FilterPage.FetchProducts: `result.success` is modelled as a boolean rather than an arbitrary truthy value, and a body that is not JSON is folded into `Thrown`.
- Filter.QueryParamsOfParams: the URL reader does no percent-decoding, which is enough because every value written is a decimal integer.
- Login.LoginPage.Login: the posted credentials and the login server's base URL are not modelled; a missing `roles` array is treated as the generic failure its `includes` call ends in.
- Api.Client.Request: the retry's own reply is final and is not passed through the interceptors again, as in the code; headers are a flat string map.
- The interval and event-listener effects (window resize, `useEffect` triggers) are not modelled. The model calls each handler directly.
