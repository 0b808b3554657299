# NextGear storefront, modelled in Dafny

This project models the core of the NextGear storefront. NextGear is a Telegram mini-app shop written in TypeScript and React.

- **Request gateway.** `src/api.ts` holds a response cache with a ten-second lifetime, a table of in-flight promises for de-duplication, and a table of abort controllers, all keyed by a request key. A periodic sweep evicts old cache entries. `abort` and `abortAll` cancel requests. The three product mutators invalidate the `products:list` entry. `updateProduct` coerces a non-numeric quantity with `Number`.
- **Order store.** `src/context/StoreContext.tsx` holds the `placeOrder` and `processOrder` transitions:
  - placing an order removes the ordered products from the catalogue, puts the new order first and empties the cart;
  - processing an order sets the order's status, and a rejection reloads the catalogue.
- **Views.** These derive data and handle form events:
  - the cart's totals, quantity buttons, checkout and plural word;
  - the search filters, categories and Telegram pre-order link;
  - the catalogue search and the "in cart" mark;
  - the order history and status badges;
  - the admin's pending list, add-product form and notice;
  - the screen routing;
  - the two product-request forms, with their validation and image-URL rewrite.

Each source file becomes one module. `api.dfy` models `src/api.ts`, `store.dfy` models `src/context/StoreContext.tsx`, `types.dfy` models `src/types/index.ts`, and so on. Three helper modules hold the JavaScript library behaviour the code relies on:

- `Strings`: `trim`, `toLowerCase`, `includes`/`indexOf`, first-occurrence `replace`, `slice(-n)` and `String(n)`.
- `Numbers`: `parseInt` and `Number` on strings.
- `Seqs`: `filter`, `some`, `Array.from(new Set(...))` and a stable `sort`.

How the code is modelled:

- **Classes.** Code that updates state step by step becomes a class whose methods change its fields:
  - the gateway's maps;
  - the store's catalogue, cart and orders;
  - each form component's `useState` variables.

  React state setters become field assignments. An asynchronous handler is split at its `await` into one method before it and one after it, or it takes the awaited result as a parameter.
- **Time and the server.** Time is a `now` parameter in milliseconds. What the server or the image host answers is an input.
- **Tokens.** A promise and its abort controller are one `nat` token. The `aborted` map records which controllers have had `abort()` called.
- **Completion.** A fetch is started by `Gateway.Request` and finished by a separate `Gateway.Complete` event. Like the `finally` block, `Complete` deletes the in-flight entries by key, not by token. A stale completion can therefore remove a newer request's entries. `Api.StaleCompletionRun` proves this happens.
- **Pure code.** Filters, sorts, string building and routing become functions. Lemmas relate them to what the screens promise.

## Model

| member | source | states |
|---|---|---|
| Types.ParseView | src/types/index.ts:21-26 | a string stands for a view exactly when it is one of ITEMS, CART, PROFILE, ADMIN |
| Types.ViewNamesRoundTrip | src/types/index.ts:21-26 | the four views and their four strings correspond one to one |
| Types.ParseStatus | src/types/index.ts:28-32 | a string stands for a status exactly when it is one of PENDING, CONFIRMED, CANCELED |
| Types.StatusNamesRoundTrip | src/types/index.ts:28-32 | the three statuses and their strings correspond one to one |
| Types.TotalsAppend | src/views/Cart.tsx:9-10 | both cart reductions add up over concatenated carts, so `total` is the sum of the lines' price*quantity and `totalItems` the sum of their quantities |
| Types.TotalsOfOne | src/views/Cart.tsx:117 | a one-line cart's total is the line's displayed amount price*quantity, its item count the line's quantity |
| Types.TotalsNonNegative | src/views/Cart.tsx:9-10 | with no negative prices or quantities, neither sum is negative |
| Types.TotalItemsAtLeastLines | src/views/Cart.tsx:10 | with quantities of at least one, the item count is at least the number of lines |
| Strings.TrimStart | src/views/RequestProduct.tsx:59 | the result is a suffix of the input, what was cut is whitespace, and it does not start with whitespace |
| Strings.TrimEnd | src/views/RequestProduct.tsx:59 | the result is a prefix of the input, what was cut is whitespace, and it does not end with whitespace |
| Strings.TrimIsInnerSlice | src/views/RequestProduct.tsx:65 | `trim` yields the slice left after cutting whitespace from both ends, and it neither starts nor ends with whitespace |
| Strings.TrimEmptyIffBlank | src/views/Search.tsx:35 | `trim()` is empty exactly when the text is all whitespace |
| Strings.TrimIdempotent | src/views/RequestProduct.tsx:65 | trimming twice is trimming once |
| Strings.ToLower | src/views/Items.tsx:11-13 | lower-casing keeps the length and maps each character on its own |
| Strings.ToLowerIdempotent | src/views/Items.tsx:11-13 | lower-casing twice is lower-casing once |
| Strings.IndexOf | src/views/RequestProduct.tsx:43 | the index found is an occurrence with no earlier one; none is found exactly when there is no occurrence |
| Strings.IncludesIff | src/views/Items.tsx:11-13 | `includes` holds exactly when the needle occurs somewhere; the empty needle is in every string |
| Strings.ReplaceFirst | src/views/RequestProduct.tsx:43 | `replace` with a string pattern replaces the first occurrence and returns the text unchanged when there is none |
| Strings.ReplaceFirstKeepsRest | src/components/ProductRequestForm.tsx:48 | only the first occurrence is replaced: the text before it and after it, later occurrences included, is kept |
| Strings.Last | src/views/Profile.tsx:72 | `slice(-n)` for n ≥ 1 is the last n characters, or the whole of a shorter string |
| Strings.DecimalString | src/views/Admin.tsx:48 | `Date.now().toString()` is a non-empty run of digits with no leading zero |
| Strings.IntString | src/context/StoreContext.tsx:21 | `String(i)` is the numeral of the value with a minus sign only for a negative number |
| Numbers.LeadingDigits | src/views/RequestProduct.tsx:66 | the longest prefix of decimal digits: all digits, and the next character is not a digit |
| Numbers.ParseIntReadsNumeral | src/views/RequestProduct.tsx:66 | `parseInt` reads back an integer's numeral after leading whitespace, ignoring any non-digit text after it |
| Numbers.ParseIntNaNIff | src/views/RequestProduct.tsx:66 | `parseInt` is NaN exactly when no digit follows the whitespace and the optional sign |
| Numbers.StringToNumberReadsNumeral | src/views/Admin.tsx:50 | `Number` reads back an integer's numeral with blanks on either side |
| Numbers.StringToNumberBlank | src/views/Admin.tsx:50 | `Number` of a blank string is 0 |
| Seqs.Filter | src/views/Items.tsx:10 | `filter` keeps only elements satisfying the predicate, all of them, and nothing new |
| Seqs.FilterIsSubsequence | src/views/Search.tsx:25 | what `filter` keeps is an order-preserving subsequence |
| Seqs.FilterMultiset | src/views/Profile.tsx:13 | `filter` keeps every copy of a satisfying element and none of the others |
| Seqs.FilterKeepsAll | src/views/Search.tsx:25-31 | a predicate true of every element keeps the whole list |
| Seqs.FilterEmptyIff | src/views/Items.tsx:47 | `filter` is empty exactly when no element satisfies the predicate |
| Seqs.Some | src/views/Items.tsx:69 | `some` holds exactly when some element satisfies the predicate |
| Seqs.Distinct | src/views/Search.tsx:21-22 | `Array.from(new Set(xs))` holds every element of the list, nothing else, and no duplicate |
| Seqs.DistinctInFirstAppearanceOrder | src/views/Search.tsx:21-22 | the de-duplicated elements come in the order of their first appearance |
| Seqs.SortDesc | src/views/Profile.tsx:14 | the sorted list is a permutation of the input with keys non-increasing |
| Seqs.SortDescIsStable | src/views/Profile.tsx:14 | elements with equal keys keep their relative order |
| Api.RequestKeyColons | src/api.ts:21-23 | every key `getRequestKey` builds holds at least two colons |
| Api.ComputedKeyIsNotProductsList | src/api.ts:44 | a call without an explicit cache key is never filed under `products:list` |
| Api.RequestKeyCollides | src/api.ts:21-23 | `getRequestKey` is not injective: different URL and body splits give one key |
| Api.SweepKeepsServableEntries | src/api.ts:26-33 | an entry `request` would still serve survives the sweep unchanged |
| Api.SweepExactlyDropsExpired | src/api.ts:28-31 | the sweep keeps exactly the entries not older than the TTL, unaltered, and a second sweep at the same time changes nothing |
| Api.EntryAgedExactlyTtl | src/api.ts:29 | an entry aged exactly 10000 ms is kept by the sweep yet no longer served (line 49 uses `<`) |
| Api.ErrorMessage | src/api.ts:78-81 | a non-ok response's error carries the body text, or `HTTP <status>` when the body is empty |
| Api.Outcome | src/api.ts:69-90 | a request resolves only when not aborted and the response is ok, with its data; an abort rejects with AbortError, a non-ok response with its error message, a rejected fetch with its reason |
| Api.Gateway.constructor | src/api.ts:1-11 | the base URL is the configured one or the local default, and all maps start empty |
| Api.Gateway.Request | src/api.ts:37-99 | a fresh cached entry is returned with nothing changed; a key in flight returns the same promise with nothing changed; otherwise a left-over controller is aborted and the key is filed with a new controller and promise in both maps; the cache is untouched; the maps stay aligned |
| Api.Gateway.AbortLeftOver | src/api.ts:60-62 | the controller still filed under the key, if any, is marked aborted |
| Api.Gateway.Register | src/api.ts:64-65 | a new, un-aborted controller and a promise are filed under the key in both in-flight maps |
| Api.Gateway.Complete | src/api.ts:78-94 | the settlement is `Outcome`; the cache is written only on success with `useCache`; success or not, the key is deleted from both in-flight maps |
| Api.Gateway.Abort | src/api.ts:109-115 | an unknown key changes nothing; otherwise its controller is aborted and only that key leaves both maps |
| Api.Gateway.AbortAll | src/api.ts:102-106 | every filed controller is aborted, both in-flight maps are emptied, the cache is kept |
| Api.Gateway.AbortEach | src/api.ts:103 | the loop marks exactly the given controllers aborted |
| Api.Gateway.Sweep | src/api.ts:26-33 | the loop deletes exactly the expired entries and touches nothing else |
| Api.Gateway.Finish | src/api.ts:132-168 | after a successful product mutator the `products:list` entry is deleted; any other endpoint, or a failed call, leaves the cache alone |
| Api.CachedEndpoints | src/api.ts:117-264 | only `getProducts`, `getUserOrders` and `getUserProductRequests` use the cache, each under an explicit key; the mutators neither cache nor name a key |
| Api.InvalidationSparesOtherEntries | src/api.ts:176-203 | neither per-user key is `products:list`, and no endpoint but `getProducts` is filed under it, so invalidation drops no other entry |
| Api.CoerceQuantity | src/api.ts:155-157 | an absent quantity stays absent, a number is kept, anything else becomes `Number(quantity)` |
| Api.CoerceQuantityIdempotent | src/api.ts:155-157 | coercing twice is coercing once |
| Api.CoerceQuantityOfNumeral | src/api.ts:155-157 | a quantity typed as an integer numeral, padded or not, is sent as that integer |
| Api.DeduplicatedRun | src/api.ts:55-57 | two identical requests in a row share one promise |
| Api.CachedRun | src/api.ts:47-52 | a cached response is served just under the TTL after it was stored, and at exactly the TTL the server is asked again |
| Api.StaleCompletionRun | src/api.ts:91-94 | abort, retry, then the aborted fetch settles: it fails with AbortError and its `finally` removes the retry's entries, so a third call starts a second concurrent fetch |
| Store.CartIds | src/context/StoreContext.tsx:31 | the ids of the cart's products, one per line, in cart order |
| Store.RemainingSpec | src/context/StoreContext.tsx:31-32 | exactly the products whose id is not in the cart are kept, each as often as before, in their order |
| Store.NewOrder | src/context/StoreContext.tsx:20-28 | the new order holds the cart, the cart's total and Pending, with the server's id, owner and date |
| Store.FindOrder | src/context/StoreContext.tsx:56 | `find` yields an order with that id, and nothing exactly when no order has it |
| Store.SetStatusSpec | src/context/StoreContext.tsx:78-84 | only the orders with the id change, only in status; the list's length and order are kept; the update is idempotent |
| Store.Store.constructor | src/context/StoreContext.tsx:12-13 | the store holds the user, admin flag, catalogue, cart and orders it is given |
| Store.Store.PlaceOrder | src/context/StoreContext.tsx:12-42 | no user or an empty cart changes nothing; a failed `createOrder` is rethrown with nothing changed; otherwise the ordered products leave the catalogue, the new order goes first, the cart is emptied, and a failed refresh is rethrown after that |
| Store.Store.ProcessOrder | src/context/StoreContext.tsx:45-91 | a non-admin gets "Only admin can process orders" with nothing changed; a failed status update is rethrown; rejecting a known order replaces the catalogue with the server's, and a failed reload is rethrown with nothing changed; then the matching orders get CONFIRMED or CANCELED |
| Store.SuccessfulOrderRun | src/context/StoreContext.tsx:12-42 | after a successful order: the cart is empty, the new pending order heads the list with the cart's total, and the catalogue is exactly the id filter of the source: the products not in the cart, in order and as often as before, and none of the ordered ones |
| Cart.MinusRequest | src/views/Cart.tsx:90-96 | minus asks for quantity-1 exactly when the quantity is above 1, never for less than 1 |
| Cart.PlusRequest | src/views/Cart.tsx:107 | plus asks for exactly the current quantity plus one |
| Cart.MinusUndoesPlus | src/views/Cart.tsx:90-107 | minus after plus asks for the original quantity |
| Cart.MinusKeepsAtLeastOne | src/views/Cart.tsx:90-96 | at quantity 1 minus does nothing; removal is only by the trash button |
| Cart.ViewAfterCheckout | src/views/Cart.tsx:12-21 | an empty cart keeps the view; otherwise the profile is shown unless `placeOrder` threw |
| Cart.Checkout | src/views/Cart.tsx:12-21 | an empty cart does nothing; otherwise the order is placed: on success the catalogue loses the ordered products, the new order heads the list and the cart is empty, user and admin flag kept; the view turns to the profile only when placing it did not throw |
| Cart.PluralWord | src/views/Cart.tsx:54 | 'товар' for 1, 'товара' below 5, 'товаров' from 5 |
| Search.CategoryList | src/views/Search.tsx:21 | one category per product, in catalogue order |
| Search.Categories | src/views/Search.tsx:20-23 | "All" first, then every category of the catalogue exactly once and nothing else |
| Search.CategoriesInFirstAppearanceOrder | src/views/Search.tsx:21-22 | the categories after "All" come in first-appearance order |
| Search.FilteredProductsSpec | src/views/Search.tsx:25-31 | exactly the products passing the name, category and stock tests are kept, in catalogue order; with the stock switch on all are in stock |
| Search.NoFiltersKeepEverything | src/views/Search.tsx:26-29 | an empty query, "All" and the stock switch off keep the whole catalogue |
| Search.ShowsRequestFormIff | src/views/Search.tsx:129 | the request form shows exactly when the query is non-empty and no product passes the filters |
| Search.PreOrderMessageParts | src/views/Search.tsx:42-46 | the message carries the item after its label, the photo or "No photo provided" after its label, and ends with `@username` |
| Search.TelegramUrlParts | src/views/Search.tsx:48 | the link is `https://t.me/next_gear_manager?text=` followed by the whole message |
| Search.PreOrderLink | src/views/Search.tsx:33-49 | no link for a blank item name or without a user; otherwise the chat link carrying the message |
| Search.SearchPanel.constructor | src/views/Search.tsx:17-18 | the screen starts with no query, "All", the stock switch off and an empty pre-order form |
| Search.SearchPanel.SubmitPreOrder | src/views/Search.tsx:33-54 | without a link nothing changes; with one both pre-order fields are cleared and the filters are kept |
| Items.ItemsFilterSpec | src/views/Items.tsx:10-14 | a product is shown exactly when its lower-cased name, description or category contains the lower-cased query; the catalogue's order is kept |
| Items.EmptyQueryKeepsEverything | src/views/Items.tsx:10-14 | an empty search shows the whole catalogue |
| Items.ShowsEmptyStateIff | src/views/Items.tsx:47 | the empty state shows exactly when no product matches |
| Items.IsInCart | src/views/Items.tsx:69 | a card is marked exactly when some cart line holds a product with its id |
| Profile.PlacedAt | src/views/Profile.tsx:14 | the orders of one date, each a member of the list, and all of them |
| Profile.UserOrdersSpec | src/views/Profile.tsx:12-14 | the history is a permutation of the user's own orders with dates non-increasing |
| Profile.UserOrdersStable | src/views/Profile.tsx:14 | orders of the same date keep the store's relative order |
| Profile.ProfileOrders | src/views/Profile.tsx:9-14 | nothing is shown without a user, else the user's history |
| Profile.StatusTone | src/views/Profile.tsx:16-34 | green exactly for CONFIRMED, red exactly for CANCELED, yellow for the rest |
| Profile.StatusStylesDiffer | src/views/Profile.tsx:16-34 | two statuses get the same badge classes exactly when they are the same status |
| Profile.ShortId | src/views/Profile.tsx:72 | the last six characters of the id, or the whole of a shorter one |
| Admin.PendingOrdersSpec | src/views/Admin.tsx:17 | the list holds exactly the pending orders, in the store's order, and its length is the number of pending orders |
| Admin.PendingLength | src/views/Admin.tsx:94 | the tab label's count equals the number of pending orders |
| Admin.ProcessedOrderLeavesPending | src/views/Admin.tsx:17 | once processed, every order with that id leaves the pending list, and every other pending order stays |
| Admin.OrDefault | src/views/Admin.tsx:52-53 | the text when it is non-empty, else the fallback, as JavaScript's logical or does on strings |
| Admin.DraftProduct | src/views/Admin.tsx:47-55 | the id is the time's numeral; the name and image are as typed; the price is `Number(price)`; category and description fall back to 'General' and 'No description'; `inStock` is true |
| Admin.DraftPriceReadsNumeral | src/views/Admin.tsx:50 | a price typed as an integer numeral becomes that integer; the padded cases are facts about `Number` that the number input never produces |
| Admin.BlankPriceIsZero | src/views/Admin.tsx:45-50 | a fact about the guard and `Number`: a non-empty blank price would pass the guard and become 0; the number input never produces blank text (it gives "" or a numeral), so the form does not reach this case |
| Admin.ProcessNotice | src/views/Admin.tsx:71-74 | the notice is a success exactly when approved, with the matching message |
| Admin.AdminPanel.constructor | src/views/Admin.tsx:15-25 | the form starts empty and closed with no notice |
| Admin.AdminPanel.PickImage | src/views/Admin.tsx:28-41 | a file is read exactly when one is picked and it is at most 5 MiB; otherwise nothing happens |
| Admin.AdminPanel.ImageRead | src/views/Admin.tsx:36-38 | the data URL becomes the image and the rest of the form is kept |
| Admin.AdminPanel.Submit | src/views/Admin.tsx:43-60 | an empty name or price does nothing; otherwise the draft product is added, the form is emptied and closed, and "Item added" is shown |
| Admin.AdminPanel.ProcessClicked | src/views/Admin.tsx:69-75 | the call is fired and the notice set at once, whatever the call does later |
| Admin.AdminPanel.NoticeExpired | src/views/Admin.tsx:62-67 | the timer clears the notice |
| Admin.AddTwiceRun | src/views/Admin.tsx:43-60 | a filled form adds its draft product; a second submit adds nothing, after a success or a blocked first submit alike |
| App.Render | src/App.tsx:14-42 | loading exactly without a user; the admin screen exactly for an admin on the admin tab; a non-admin on that tab sees the catalogue; the other tabs show their own screens |
| App.RenderValue | src/App.tsx:30-40 | a tab value naming no view shows the catalogue; a view's value renders as that view |
| App.RenderValueOfViewName | src/App.tsx:30-40 | each view's own string renders that view |
| App.OnlyAdminsSeeAdmin | src/App.tsx:26-38 | the admin screen shows exactly for a signed-in admin on the "ADMIN" tab |
| App.CartItemsCountSpec | src/App.tsx:48 | the badge adds up over cart lines and, with positive quantities, is at least the number of lines |
| RequestProduct.ResetForm | src/views/RequestProduct.tsx:10-14 | the form holds the given name, quantity "1" and no photo |
| RequestProduct.SubmitArgs | src/views/RequestProduct.tsx:59-68 | nothing is sent exactly for a blank name; otherwise the trimmed name, `parseInt(quantity)`, and the photo or none when empty |
| RequestProduct.SubmittedNameIsTrimmed | src/views/RequestProduct.tsx:65 | the name sent has no whitespace at either end and is what was typed minus blank ends |
| RequestProduct.SubmittedQuantityReadsNumeral | src/views/RequestProduct.tsx:66 | a quantity typed as an integer is sent as that integer; the cases with blanks before it or non-digits after it are facts about `parseInt` that the number input never produces |
| RequestProduct.SubmittedQuantityWithoutDigits | src/views/RequestProduct.tsx:66 | a quantity with no leading digits is sent as NaN |
| RequestProduct.InitialQuantityIsOne | src/views/RequestProduct.tsx:12 | the untouched quantity "1" is sent as 1 |
| RequestProduct.SubmitDisabledIff | src/views/RequestProduct.tsx:162 | the button is disabled exactly while uploading or while the name is blank; an enabled button sends |
| RequestProduct.OptimizedUrlInsertsOptions | src/views/RequestProduct.tsx:43 | the resize options are inserted at the first `/upload/` and the rest is kept |
| RequestProduct.OptimizedUrlWithoutSegment | src/views/RequestProduct.tsx:43 | a URL without `/upload/` is stored as it came |
| RequestProduct.ImageAfterUpload | src/views/RequestProduct.tsx:41-47 | a non-empty `secure_url` is stored rewritten; otherwise the photo is unchanged |
| RequestProduct.RequestProductModal.constructor | src/views/RequestProduct.tsx:7-14 | closed, not uploading, with name "", quantity "1" and no photo |
| RequestProduct.RequestProductModal.SetOpen | src/views/RequestProduct.tsx:78 | open and close touch neither the form nor the upload flag |
| RequestProduct.RequestProductModal.StartUpload | src/views/RequestProduct.tsx:17-26 | an upload starts exactly for a picked file of at most 5 MiB and sets `uploading`; otherwise nothing changes |
| RequestProduct.RequestProductModal.FinishUpload | src/views/RequestProduct.tsx:41-53 | the photo follows `ImageAfterUpload`, and `uploading` is cleared whatever the reply |
| RequestProduct.RequestProductModal.Submit | src/views/RequestProduct.tsx:56-72 | sends `SubmitArgs`; a blank name or a failed request changes nothing; success resets the form and closes the modal |
| RequestProduct.ResubmitRun | src/views/RequestProduct.tsx:56-72 | a blank name sends nothing; a second submit at once sends nothing, after a success (which closes the modal) or a blocked first submit alike |
| ProductRequestForm.Render | src/components/ProductRequestForm.tsx:79 | nothing is rendered exactly when closed; otherwise the form with the button disabled exactly while uploading or with a blank name |
| ProductRequestForm.PropName | src/components/ProductRequestForm.tsx:11 | the `productName` prop, defaulting to "" |
| ProductRequestForm.RequestForm.constructor | src/components/ProductRequestForm.tsx:11-19 | the form starts from the prop name, quantity "1", no photo, not uploading |
| ProductRequestForm.RequestForm.StartUpload | src/components/ProductRequestForm.tsx:22-31 | an upload starts exactly for a picked file of at most 5 MiB; otherwise nothing changes |
| ProductRequestForm.RequestForm.FinishUpload | src/components/ProductRequestForm.tsx:46-58 | the photo follows `ImageAfterUpload`; `uploading` is cleared whatever the outcome |
| ProductRequestForm.RequestForm.Submit | src/components/ProductRequestForm.tsx:61-77 | sends `SubmitArgs`; `onClose` is called exactly after a successful send, when the form is reset to the prop name, quantity "1" and no photo; otherwise nothing changes |
| ProductRequestForm.ResubmitRun | src/components/ProductRequestForm.tsx:61-77 | after a successful submit the form holds the prop name again, so the same request, with quantity 1 and no photo, can be sent at once |

## Left out

- `fetch`, the HTTP layer and request headers (including `X-Telegram-Init-Data`) are not modelled. What a fetch answers is the `Response` given to `Gateway.Complete`. Headers play no part in the request key.
- `getInitData` (src/api.ts:13-18) reads the Telegram WebApp object. Its value sits inside the opaque request-body text.
- `JSON.stringify` of bodies and `response.json()` are opaque strings. The model does not assume they are injective.
- `setInterval`, `setTimeout` and `Date.now()` are not modelled; time is the `now` parameter and the timers are the `Sweep` and `NoticeExpired` events. `Gateway.Complete` takes the time of the cache write as its own `now`.
- Promise interleaving and `AbortSignal` propagation are left out; the model uses tokens and explicit completion events. `Api.Outcome` assumes that an aborted fetch always rejects with AbortError, even if its response had already arrived.
- `api.requestProduct` (src/api.ts:206-242) is not modelled. It is a plain fetch wrapper outside the gateway with no state of its own. The forms take only its success or failure, as `requestOk`.
- The Cloudinary upload, `FileReader`, `alert`, `window.open` and `console.error` are all I/O. What they return is an input, or their effect is the returned link or flag.
- The `refreshOrders` call in `placeOrder` and `processOrder` is left out: its body is not part of the fragment shown. Only its failure, which is rethrown after the state has changed, is an input.
- The other store operations are not part of this model, because the fragment does not show them. These are `initializeApp`, `addToCart`, `updateCartItemQuantity`, `removeFromCart` and `setProducts`. The `Cart.Checkout` and view modules use only the store state.
- Store.Store.ProcessOrder: the conversion of the server's product fields (src/context/StoreContext.tsx:65-73) is not modelled. The reply is already a list of `Product`s.
- Floating-point money is not modelled: prices and totals are integers. `toFixed`, `toLocaleString` and date formatting are not modelled either.
- Strings.ToLower: lower-cases ASCII and the Cyrillic capitals (U+0400-U+042F) only, because full Unicode case mapping is out of scope; other characters are kept.
- Numbers.ParseInt: reads decimal integers only. A `0x` prefix, which `parseInt` without a radix reads as hexadecimal, is read decimally here, so it stops at the `x`.
- Numbers.StringToNumber: fractions, exponents, `Infinity`, and hexadecimal, binary or octal numerals come out as NaN, because only integer values are modelled.
- Api.ToNumber: objects and arrays are not modelled as quantity values.
- Numbers.ParseIntReadsNumeral: JavaScript numbers are IEEE doubles, and the model's are unbounded integers. An integer numeral beyond 2^53 in magnitude is read back exactly here, while `parseInt` rounds it to the nearest double (`parseInt("9007199254740993")` is 9007199254740992).
- Numbers.StringToNumberReadsNumeral: `Number` rounds in the same way beyond 2^53, which the model does not capture.
- Api.CoerceQuantityOfNumeral: rests on `Number`'s reading, so it is exact only for integers of magnitude at most 2^53.
- RequestProduct.SubmittedQuantityReadsNumeral: rests on `parseInt`'s reading, so it is exact only for integers of magnitude at most 2^53.
- Admin.DraftPriceReadsNumeral: rests on `Number`'s reading, so it is exact only for integers of magnitude at most 2^53.
- Strings.IntString: always gives the digits. `String(i)` switches to exponent form from 1e21 upward (`String(1e21)` is "1e+21"), which the model does not capture.
- Strings.Last: a string is a sequence of Unicode scalar values, but JavaScript strings are UTF-16. `slice(-6)` counts code units, so it can split a character outside the Basic Multilingual Plane, while `Last` counts whole characters. On ASCII text the two agree, and so they do on the numeral ids that `IntString` builds.
- RequestProduct.ImageAfterUpload: `secure_url` is taken to be a string or missing. A truthy non-string value would throw in `replace`, which leaves the photo unchanged just as a failure does.
- Presentation is not modelled: JSX, Tailwind markup, icons, `src/components/Layout.tsx`, `src/components/ProductCard.tsx` and `src/components/Notifications.tsx`. The admin screen's tab switch and the text-field setters are also plain state writes with no logic.
- The compile defects are not modelled: the stray `]` at src/types/index.ts:1 and the missing `isAdmin` prop at src/App.tsx:45-49. The model uses the intended types.
- As written, the reply for `createOrder` is used without validation. `CreateReply` gives the id, owner and date as integers.
