# OrderSystem storefront: a Dafny model

OrderSystem is a small storefront backed by a spreadsheet. Customers browse a
product grid, open an order form, choose their province, city and barangay
from cached address lists, and pay through Maya or GCash. An admin dashboard
filters, selects and exports orders. A Node script books courier shipments
on the J&T Express portal, one order at a time.

This project models the logic of those parts:

- `automation/jt_booking.js`, the booking script (modules `BookingPortal` and
  `BookingRun`):
  - the command line and the choice of mode;
  - the fetch of the orders;
  - the loop that books each order into the `results` accumulator;
  - the login check, the field filling that never fails an order, and the
    three-step tracking-number extraction;
  - the backend updates, the printed summary and the callback.
- `src/pages/AdminDashboard.jsx` (module `AdminDashboard`): the token check,
  the order filter, the selection set, the action log bounded to 20 entries,
  the amount rule and the CSV text.
- `src/pages/OrderForm.jsx` (module `OrderForm`): quantity clamping, the
  province/city/barangay reset cascade, the order data sent to the backend,
  and the payment branch.
- `src/pages/ProductGrid.jsx` (module `ProductGrid`): the search filter, the
  stock badge and the QR-code list.
- `src/services/api.js` (module `Api`): error classification, default empty
  results, request parameters, and the 24-hour address cache in
  `localStorage`.
- `src/services/qrService.js` (modules `QrService` and `UriComponent`): the
  chart URLs. This includes `encodeURIComponent` with UTF-8 percent-encoding
  (section 2.1 of RFC 3986) and its inverse.

## How the model is built

Shared modules:

- `Common`: Option, Result, `Array.prototype.filter` and `map`, and the
  order-preserving subsequence relation.
- `Strings`: `toLowerCase`, `includes`, `startsWith`, `join`, `split`, `trim`
  and decimal rendering.
- `Records`: the order and product rows. A column the sheet may leave out is
  an `Option`.

State that the source mutates is held in classes:

- `Api.AddressCache`: the `localStorage` map.
- `OrderForm.OrderFormState`: the form fields.
- `AdminDashboard.Dashboard`: the dashboard state.
- `BookingRun.BookingScript`: the script's module-level `ordersToProcess` and
  `results`.

Each method either names in its `modifies` clause only the fields it may
change, or modifies the whole object and states every field. The new values
are stated in terms of specification functions.
The properties are proved about those functions.

Everything outside the program is a parameter:

- the HTTP replies (`Reply`/`Result` values);
- the clock (`now`, `fetchedAt`, timestamps);
- the browser.

The browser is an oracle. A `BookingPortal.PageScript` gives, for one order,
what each page step returns or the message of the error it throws. The run
receives one such script per order index.

The model follows the code in these behavioural choices:

- A booking whose tracking number cannot be found is recorded as a success
  with the placeholder `TRACKING-PENDING`, and that order is marked `Shipped`
  (`BookingPortal.MissingTrackingStillBooked`, `BookingRun.PlaceholderShipped`).
  There is no "indeterminate" outcome.
- Nothing stops an already shipped order from being booked again. The
  single-order fetch does not look at the order's status.
- The script logs in again for every order. It never re-authenticates within
  one order.
- Some errors end the whole run rather than one order's attempt:
  - a missing order;
  - a page that cannot be opened;
  - a page that cannot be closed.

  When the run ends early, the browser is not closed
  (`BookingRun.BookingScript.ProcessOrder`, `BookingRun.BookingScript.Run`).

At `src/pages/AdminDashboard.jsx:146` the amount expression has an unbalanced
parenthesis. The model uses the intended `(Price || 0) * (Quantity || 1)`,
which is the expression written at line 331.

## Model

| member | source | states |
|---|---|---|
| `BookingRun.FindArg` | automation/jt_booking.js:411 | the index found is the first argument that starts with the key; no earlier argument does, and none at all when nothing is found |
| `BookingRun.GetArgValue` | automation/jt_booking.js:410-413 | `null` when no argument starts with the key (a longer key such as `--orderIdX` also matches) or the matching argument is empty; `undefined` exactly when the matching non-empty argument has no `=`; otherwise the text after its first `=`, up to the next `=` or the end |
| `BookingRun.GetArgValueReads` | automation/jt_booking.js:410-413 | the first argument of the form `key=v` or `key=v=...` yields exactly `v` |
| `BookingRun.GetArgValueStopsAtSecondEquals` | automation/jt_booking.js:412 | `a=b=c` read with key `a` yields `b` |
| `BookingRun.SelectMode` | automation/jt_booking.js:49-67 | single-order mode exactly when `--orderId` has a non-empty value; bulk mode exactly when it does not and `--bulk` is present; otherwise usage |
| `BookingRun.OrderIdBeatsBulk` | automation/jt_booking.js:58-63 | `--orderId=<id>` selects that order whether `--bulk` comes before or after it |
| `BookingRun.EmptyOrderIdFallsThrough` | automation/jt_booking.js:58-67 | an empty `--orderId=` is falsy: `--bulk` decides, and without it the script prints its usage |
| `BookingRun.FetchedOrders` | automation/jt_booking.js:103-134 | a fetch error ends the run; a single-order fetch gives a one-element list even when the order is missing; a bulk fetch gives the returned orders in order, or `[]` |
| `BookingRun.Rows` | automation/jt_booking.js:82-84 | order `i` is attempted on page `i`: one processed row per order, in input order |
| `BookingRun.ResultsPartition` | automation/jt_booking.js:167-179 | every processed order lands in exactly one of `success` and `failed`, so their lengths add up to the number of orders |
| `BookingRun.SuccessRecorded` | automation/jt_booking.js:167-170 | a booked order is recorded in `success` with its id and tracking number |
| `BookingRun.FailureRecorded` | automation/jt_booking.js:174-179 | an order whose attempt threw is recorded in `failed` with its id and the error message |
| `BookingRun.UpdatesMatchSuccesses` | automation/jt_booking.js:348-362 | the backend updates pair one to one with the successes: same order, same tracking number, status `Shipped` |
| `BookingRun.PlaceholderShipped` | automation/jt_booking.js:341-342 | an order booked with the placeholder is still sent to the backend as `Shipped` with `TRACKING-PENDING` as its tracking number |
| `BookingRun.ResultsAppend` | automation/jt_booking.js:82-84 | processing one more order extends `success`, `failed` and the updates by that order's entry only, keeping the earlier entries in order |
| `BookingRun.RecordedStep` | automation/jt_booking.js:139-183 | after order `n` is processed, the results are exactly those of the first `n + 1` orders |
| `BookingRun.SummaryAsPrinted` | automation/jt_booking.js:384-390 | the printed summary has total 0 and the lengths of `success` and `failed` |
| `BookingRun.PrintedTotalDisagrees` | automation/jt_booking.js:89 | with at least one order, the printed total differs from succeeded plus failed |
| `BookingRun.CorrectedSummary` | automation/jt_booking.js:368 | with the total the callback carries, the total is the number of orders and equals succeeded plus failed |
| `BookingRun.BookingScript.constructor` | automation/jt_booking.js:38-43 | no orders, empty `success` and `failed`, total 0, nothing printed or posted |
| `BookingRun.BookingScript.FetchOrders` | automation/jt_booking.js:103-134 | `ordersToProcess` becomes the fetched list; a fetch error is returned and changes nothing |
| `BookingRun.BookingScript.UpdateOrderInBackend` | automation/jt_booking.js:348-362 | the posted update carries the order id, `Shipped`, the tracking number and, as written, the Apps Script URL as its token; its failure changes nothing else |
| `BookingRun.BookingScript.ProcessOrder` | automation/jt_booking.js:139-183 | a missing order or a page that cannot be opened ends the run with no result; otherwise the attempt is appended to `success` (with its update) or to `failed`; a page that cannot be closed then ends the run; the run goes on exactly when the order passes |
| `BookingRun.RecordedAtStop` | automation/jt_booking.js:82-84 | how many orders the results hold when the loop stops: all of them when every order passes; otherwise the orders before the first one that does not, plus that one when it was there and its page opened |
| `BookingRun.BookingScript.ProcessAll` | automation/jt_booking.js:82-84 | the loop completes exactly when every order passes, and then the results are those of all orders in order; on an early stop they are those of the first `RecordedAtStop` orders, whose backend updates are already posted |
| `BookingRun.BookingScript.PrintSummary` | automation/jt_booking.js:384-405 | the summary holds `total` as it is at that moment and the two list lengths |
| `BookingRun.BookingScript.SendResultsToBackend` | automation/jt_booking.js:367-379 | `total` becomes the number of orders, and the callback carries `success`, `failed`, that total and the timestamp |
| `BookingRun.BookingScript.Run` | automation/jt_booking.js:48-98 | exit code 0 exactly when a mode is chosen, the fetch succeeds and either there are no orders or the browser launches, every order passes and the browser closes. With no orders, nothing is launched, printed or posted. On success the results cover every order, the printed summary is `SummaryAsPrinted` and the callback's counts are `CorrectedSummary`. Once the browser is launched, the results are those of the first `RecordedAtStop` orders; before that they are empty. On exit code 1 no summary is printed and no callback posted |
| `BookingPortal.LoginError` | automation/jt_booking.js:188-210 | a page error is rethrown; otherwise the login fails with `Login failed - check credentials` exactly when the URL after logging in contains `login` |
| `BookingPortal.LoginAnywhereFails` | automation/jt_booking.js:206-209 | `login` anywhere in the URL counts as a failed login |
| `BookingPortal.Selectors` | automation/jt_booking.js:267-273 | five selectors are tried for each field |
| `BookingPortal.SelectorSearch` | automation/jt_booking.js:264-310 | a field filled by selector is filled by one of the selectors from the current one on |
| `BookingPortal.SearchSkipsEmptySelectors` | automation/jt_booking.js:275-281 | selectors that find no elements are passed over |
| `BookingPortal.FirstFoundSelectorFilled` | automation/jt_booking.js:275-281 | the first selector that finds elements is the one filled |
| `BookingPortal.NoSelectorFallsBackToLabel` | automation/jt_booking.js:283-305 | when no selector finds anything, the search by the field's name text decides |
| `BookingPortal.FillField` | automation/jt_booking.js:264-310 | the selector loop ends as `SelectorSearch` says: the first selector with elements is filled, then the name-text search; any error is caught and the field skipped |
| `BookingPortal.FormPlan` | automation/jt_booking.js:230-253 | 18 distinct fields; package size defaults to `Small` and item category to `Electronics` |
| `BookingPortal.FormPlanValues` | automation/jt_booking.js:230-250 | the sender entries carry the shop's name, contact and address; the receiver entries carry the order's customer name, contact, address details, province, city, district and barangay; quantity is the order's or `undefined` |
| `BookingPortal.FillBookingForm` | automation/jt_booking.js:227-259 | every planned field is tried in order with its value, whatever happened to the ones before |
| `BookingPortal.WordRun` | automation/jt_booking.js:333 | `\w+` takes the longest run of word characters |
| `BookingPortal.WordRunOf` | automation/jt_booking.js:333 | a run of word characters followed by a non-word character is taken exactly |
| `BookingPortal.FirstTrackingMatch` | automation/jt_booking.js:333 | the position found is the leftmost where `tracking=` or `tracking/` and a word character match, in any letter case |
| `BookingPortal.UrlTracking` | automation/jt_booking.js:332-336 | there is no capture exactly when the pattern matches nowhere; otherwise the capture is the longest run of word characters after the leftmost match's `tracking=` or `tracking/` |
| `BookingPortal.UrlTrackingFinds` | automation/jt_booking.js:332-336 | a URL with `tracking=<id>` or `tracking/<id>`, the keyword in any letter case, and no earlier match yields exactly `<id>` |
| `BookingPortal.TrackingKeywordCases` | automation/jt_booking.js:333 | with the `i` flag, `Tracking` and `TRACKING` are the keyword too |
| `BookingPortal.SubmitBooking` | automation/jt_booking.js:315-343 | the tracking element's trimmed text wins; then the id in the URL; then the placeholder. It fails only when the submit or the screenshot throws: a submit error is returned as is, and the screenshot error matters only when the placeholder is reached |
| `BookingPortal.AttemptOutcome` | automation/jt_booking.js:146-161 | booked exactly when login, opening the form and submitting all succeed, with the submitted tracking number; otherwise the failure carries the first error: the login's, then opening the form's, then the submit's |
| `BookingPortal.FieldsNeverDecide` | automation/jt_booking.js:255-258 | what happens while fields are filled never changes how the attempt ends |
| `BookingPortal.MissingTrackingStillBooked` | automation/jt_booking.js:338-342 | without a tracking element or a URL id, the order is booked with `TRACKING-PENDING` |
| `BookingPortal.ElementBeatsUrl` | automation/jt_booking.js:324-329 | a tracking element decides the tracking number, whatever the URL holds |
| `Strings.Trim` | automation/jt_booking.js:328 | the result is `s` without surrounding whitespace and does not start or end with whitespace |
| `Strings.TrimIdempotent` | automation/jt_booking.js:328 | trimming twice is trimming once |
| `AdminDashboard.LoadOrdersRequest` | src/pages/AdminDashboard.jsx:39-50 | the request asks for `getOrders` and carries the three filters |
| `Common.FilterMultiplicity` | src/pages/AdminDashboard.jsx:187 | `filter` keeps every copy of a kept element and no copy of a dropped one |
| `AdminDashboard.FilteredOrdersCount` | src/pages/AdminDashboard.jsx:187-197 | an order appears in the filtered list as often as in the loaded list when it matches, and never otherwise |
| `AdminDashboard.FilteredOrders` | src/pages/AdminDashboard.jsx:187-197 | an order-preserving subsequence of the orders, holding exactly the orders that match the search and both status filters |
| `AdminDashboard.InitialFiltersShowAll` | src/pages/AdminDashboard.jsx:13-17 | the initial filters show every loaded order |
| `AdminDashboard.StatusFilterExact` | src/pages/AdminDashboard.jsx:193-194 | a status filter other than `all` lets through only orders whose status equals it exactly |
| `AdminDashboard.Toggled` | src/pages/AdminDashboard.jsx:58-66 | the id is in the result exactly when it was not selected; every other id is unchanged |
| `AdminDashboard.ToggleTwice` | src/pages/AdminDashboard.jsx:58-66 | toggling the same id twice restores the selection |
| `AdminDashboard.OrderIds` | src/pages/AdminDashboard.jsx:72 | exactly the ids of the loaded orders |
| `AdminDashboard.SelectAll` | src/pages/AdminDashboard.jsx:68-74 | a selection as large as the order list is cleared; any other becomes every loaded id |
| `AdminDashboard.DistinctIdsCount` | src/pages/AdminDashboard.jsx:72 | distinct order ids are as many as the orders |
| `AdminDashboard.SelectAllTwice` | src/pages/AdminDashboard.jsx:68-74 | with distinct ids, select-all on a partial selection selects every order, and pressing it again clears the selection |
| `AdminDashboard.SelectAllComparesSizesOnly` | src/pages/AdminDashboard.jsx:69 | a stale selection as large as the order list is cleared although none of its ids is loaded |
| `AdminDashboard.Newest` | src/pages/AdminDashboard.jsx:131 | `slice(0, 20)`: the first at most 20 entries, in order |
| `AdminDashboard.PushLog` | src/pages/AdminDashboard.jsx:126-132 | the new entry is first and the previous entries follow in order; the log holds at most 20 entries |
| `AdminDashboard.PushLogsNewestFirst` | src/pages/AdminDashboard.jsx:126-132 | after any number of entries, the log is the entries newest first followed by the older log, cut to 20 |
| `AdminDashboard.Amount` | src/pages/AdminDashboard.jsx:331 | price times quantity; a missing or zero price gives 0; a missing or zero quantity counts as 1 |
| `AdminDashboard.ExportedOrders` | src/pages/AdminDashboard.jsx:135-136 | the selected loaded orders in order when there is at least one; otherwise all orders |
| `AdminDashboard.ExportedOrdersCount` | src/pages/AdminDashboard.jsx:135-136 | with a selection, an order is exported as often as it is loaded when its id is selected, and never otherwise |
| `AdminDashboard.CsvCells` | src/pages/AdminDashboard.jsx:140-150 | nine cells, one per header column: order id, tracking number, customer, product, payment status, shipping status and date are the value or empty; quantity is the value, or empty when missing or 0; amount is the peso sign and the amount |
| `AdminDashboard.CsvLines` | src/pages/AdminDashboard.jsx:138-151 | when no cell holds a line break, the CSV (`Csv`, which `Dashboard.CsvExport` applies to the dashboard's orders and selection) is the header line then one line per exported order, in order |
| `AdminDashboard.CsvLineCells` | src/pages/AdminDashboard.jsx:140-150 | when no cell holds a comma, each line splits back into its nine cells |
| `AdminDashboard.CommaShiftsColumns` | src/pages/AdminDashboard.jsx:140-150 | cells are not quoted: a customer name with a comma gives a line of more than nine fields |
| `AdminDashboard.Dashboard.constructor` | src/pages/AdminDashboard.jsx:21-27 | authenticated exactly when the stored token is the admin token |
| `AdminDashboard.Dashboard.HandleLogin` | src/pages/AdminDashboard.jsx:29-37 | the entered token is stored and accepted exactly when it equals the admin token; otherwise an alert and no change |
| `AdminDashboard.Dashboard.LoadOrders` | src/pages/AdminDashboard.jsx:39-50 | the request carries the filters; an answer replaces the orders (missing data gives `[]`); a failure alerts and keeps them |
| `AdminDashboard.Dashboard.SelectOrder` | src/pages/AdminDashboard.jsx:58-66 | the selection is toggled for the id |
| `AdminDashboard.Dashboard.SelectAllOrders` | src/pages/AdminDashboard.jsx:68-74 | the selection becomes `SelectAll` of the old selection |
| `AdminDashboard.Dashboard.ClearSelection` | src/pages/AdminDashboard.jsx:269 | the selection is emptied |
| `AdminDashboard.Dashboard.AddLog` | src/pages/AdminDashboard.jsx:126-132 | the log becomes `PushLog` of the old log and the new entry, and stays within 20 entries |
| `OrderForm.Decrement` | src/pages/OrderForm.jsx:172 | `max(1, q - 1)` |
| `OrderForm.Increment` | src/pages/OrderForm.jsx:187 | `min(stock, q + 1)` |
| `OrderForm.ButtonsStayInRange` | src/pages/OrderForm.jsx:172-187 | from a quantity between 1 and the stock, both buttons stay in that range |
| `OrderForm.ButtonsUndoEachOther` | src/pages/OrderForm.jsx:172-187 | below the stock `-` undoes `+`, and above 1 `+` undoes `-` |
| `OrderForm.IncrementPullsToStock` | src/pages/OrderForm.jsx:180-187 | `+` on a quantity at or above the stock gives the stock; with no stock it gives a quantity below 1 |
| `OrderForm.CheckoutAmount` | src/pages/OrderForm.jsx:111 | the amount sent to checkout is the total the form displays |
| `OrderForm.OrderIdText` | src/pages/OrderForm.jsx:114 | an order id the backend did not return renders as `undefined` |
| `OrderForm.OrderFormState.constructor` | src/pages/OrderForm.jsx:15-28 | quantity 1, payment `maya`, empty fields and lists |
| `OrderForm.OrderFormState.DecreaseQuantity` | src/pages/OrderForm.jsx:172 | quantity becomes `Decrement` of the old quantity; the address is unchanged |
| `OrderForm.OrderFormState.IncreaseQuantity` | src/pages/OrderForm.jsx:187 | quantity becomes `Increment` of the old quantity and the stock |
| `OrderForm.OrderFormState.TypeQuantity` | src/pages/OrderForm.jsx:182 | a typed quantity is stored unclamped |
| `OrderForm.OrderFormState.ChoosePayment` | src/pages/OrderForm.jsx:301-311 | the chosen payment method is stored |
| `OrderForm.OrderFormState.LoadProvinces` | src/pages/OrderForm.jsx:50-57 | the province list is what the address cache serves; a failure keeps the old list |
| `OrderForm.OrderFormState.ProvinceChange` | src/pages/OrderForm.jsx:59-72 | the province is set and the city and barangay cleared; a chosen province loads its cities through the cache |
| `OrderForm.OrderFormState.CityChange` | src/pages/OrderForm.jsx:74-86 | the city is set and only the barangay cleared; the province is unchanged; a chosen city loads its barangays |
| `OrderForm.OrderFormState.BarangayChange` | src/pages/OrderForm.jsx:271 | the barangay is set; province and city are unchanged |
| `OrderForm.OrderFormState.OrderDataOf` | src/pages/OrderForm.jsx:93-106 | product id, customer name, email, contact and address details are the form's; province, city and barangay are the form's, and in a valid form a city comes only with a province and a barangay only with a city; the product's size and category become package size and item category |
| `OrderForm.OrderFormState.Submit` | src/pages/OrderForm.jsx:88-122 | a failed creation alerts with its message; otherwise `maya` starts checkout with the displayed total, the order id and the order data, and any other method navigates to `/success?order=<id>` |
| `ProductGrid.FilteredProducts` | src/pages/ProductGrid.jsx:29-33 | an order-preserving subsequence of the products, holding exactly those whose name, description or category contains the term, ignoring case |
| `ProductGrid.FilteredProductsCount` | src/pages/ProductGrid.jsx:29-33 | a product appears in the filtered list as often as in the catalogue when it matches, and never otherwise |
| `ProductGrid.Grid` | src/pages/ProductGrid.jsx:72-83 | "No products found." exactly when no product is kept; otherwise the cards of the filtered products |
| `ProductGrid.SearchIgnoresTermCase` | src/pages/ProductGrid.jsx:29-33 | the search does not depend on the letter case of the term |
| `ProductGrid.SearchFindsName` | src/pages/ProductGrid.jsx:30 | typing a product's whole name, in any case, finds it |
| `ProductGrid.EmptySearchKeepsDefined` | src/pages/ProductGrid.jsx:29-33 | with an empty term a product is kept exactly when it has a name, a description or a category |
| `ProductGrid.EmptySearchShowsAll` | src/pages/ProductGrid.jsx:29-33 | with an empty term the whole catalogue shows exactly when no product lacks all three fields |
| `ProductGrid.QrCodesListCount` | src/pages/ProductGrid.jsx:163-168 | a product with a QR link is listed as often as in the catalogue; one without is never listed |
| `ProductGrid.StockBadge` | src/pages/ProductGrid.jsx:120-121 | "In Stock" exactly when the stock is positive, "Out of Stock" otherwise |
| `ProductGrid.QrCodesList` | src/pages/ProductGrid.jsx:163-168 | nothing exactly when no product has a truthy QR link; otherwise a non-empty order-preserving list of exactly those products |
| `Api.HandleError` | src/services/api.js:13-22 | a server answer gives its error text or `API request failed`; no answer gives the network message; otherwise the error's own message |
| `Api.FetchList` | src/services/api.js:73-85 | an answer without data gives `[]`, with data gives the data; a failure gives `HandleError`'s message |
| `Api.FetchOne` | src/services/api.js:36-48 | an answer gives its product or `null`; a failure gives `HandleError`'s message |
| `Api.OrdersParams` | src/services/api.js:75-78 | `action=getOrders` plus every filter, a filter named `action` overriding it |
| `Api.AddressParams` | src/services/api.js:126-133 | `action` and `level`, then `parentId` only when it is not empty |
| `Api.CacheKey` | src/services/api.js:115 | the key starts with `address_`, holds the level next and ends with `_` and the parent id |
| `Api.CacheKeyInjective` | src/services/api.js:115 | with level names free of `_`, different lists never share a key |
| `Api.Cached` | src/services/api.js:116-124 | a cached list is served exactly when it exists and is younger than 86400000 ms |
| `Api.Remember` | src/services/api.js:139-144 | only a non-empty list is written, stamped with the fetch time; no other key changes |
| `Api.Served` | src/services/api.js:112-150 | a fresh cached list is served as it is; without one the result is exactly what the fetch gives |
| `Api.RememberThenServe` | src/services/api.js:116-144 | a list just remembered is served while fresh and fetched again after 24 hours |
| `Api.RememberIsolated` | src/services/api.js:139-144 | remembering one list leaves what every other key serves unchanged |
| `Api.RememberKeepsNonEmpty` | src/services/api.js:139-144 | the cache never holds, and so never serves, an empty list |
| `Api.AddressCache.GetAddresses` | src/services/api.js:112-150 | a fresh hit is returned with no request and no change; otherwise the request carries the level and parent id, the fetched list is returned, and a non-empty one is cached |
| `UriComponent.Encode` | src/services/qrService.js:10 | the result consists of unreserved characters and `%XX` triplets only |
| `UriComponent.WellEncodedAlphabet` | src/services/qrService.js:10 | an encoded payload contains no `&`, `=`, `?`, `#` or `/` |
| `UriComponent.DecodeEncode` | src/services/qrService.js:10 | percent-decoding the encoded payload gives back the payload |
| `QrService.ChartUrl` | src/services/qrService.js:10 | the chart prefix followed by a well-encoded payload |
| `QrService.ChartUrlQuery` | src/services/qrService.js:10 | the chart URL's query is exactly the three pairs `chs`, `cht` and `chl` |
| `QrService.ChartPayloadRoundTrip` | src/services/qrService.js:10 | `chs` is `200x200`, `cht` is `qr`, and `chl` decodes to the payload |
| `QrService.OrderQrCarriesOrderUrl` | src/services/qrService.js:8-11 | a product's QR code carries `<origin>/order?id=<id>`, recoverable exactly |
| `QrService.MessengerQrCarriesMessengerUrl` | src/services/qrService.js:18-22 | a product's Messenger QR code carries `messenger://order?product=<id>`, recoverable exactly |

## Left out

- Browser driving is not modelled. This covers navigation, waits, credentials, the selectors of the login and submit clicks, and the screenshot file name. Each page step is one oracle answer.
- The search by a field's name text is one oracle step. This covers `page.$$('text=...')`, `evaluateHandle` and the walk to the closest form.
- Whether `page.fill` rejects a number or `undefined` value is part of the oracle's answer.
- A tracking element whose `textContent` is `null` is not modelled. The element's text is always a string.
- The browser launch and close are oracle answers. The browser left open after an early end is not modelled as a resource.
- `BookingRun.FetchedOrders`: a bulk list is taken to hold order objects. A `null` entry, or `data` that is not an array, is not modelled.
- Network calls are not modelled. `axios` and `fetch` become reply parameters.
- `createOrder` is modelled only through the reply `Submit` receives. `updateOrderStatus`, `triggerJtBooking` and the JSON parsing of replies are not modelled. They build a payload and return the reply, with no logic of their own.
- `Api.AddressCache.GetAddresses`: a corrupt cached entry is not modelled. `JSON.parse` would throw, and the error would go to `handleError`. Storage quota errors are not modelled either.
- Asynchronous ordering and React re-rendering are not modelled. Each handler is one atomic state change.
- Console output is not modelled, including the summary lines that list each entry. Only the printed counts are kept.
- The loading and submitting flags are not modelled.
- `AdminDashboard.Dashboard.constructor` and `AdminDashboard.Dashboard.HandleLogin` do not call `LoadOrders` themselves: the dashboard loads orders on mount with a valid stored token and after a successful login, and the model leaves that call to the caller.
- `Records.Product`: the price and stock of a product are always present. A product with no `Stock` (shown as "Out of Stock", and turning `+` into `NaN`) and one with no `Price` cannot be written down.
- The admin dashboard has no model of:
  - `handleMarkPaid`, `handleMarkShipped`, `handleSendEmail` and `handleJtBooking` (remote calls followed by `AddLog`);
  - the filter inputs and the effect that reloads orders when filters change (this is `LoadOrders` with the new filters);
  - the Blob download of the CSV and its file name.
- The order form has no model of `loadProduct`, the plain text inputs, or what `initMayaCheckout` does with the amount. `Number(...)` parsing is out too: `TypeQuantity` takes the parsed integer.
- `downloadQR` is not modelled (browser I/O).
- `src/pages/Success.jsx`, `src/services/paymentService.js`, `src/services/config.js`, `src/App.jsx` and `src/components/Navbar.jsx` are not part of this model. They hold UI, a redirect and configuration defaults.
- Numbers are integers. Floating-point prices, `NaN` and `Infinity` are not modelled.
- `Strings.ToLower`: lower-cases ASCII letters only. JavaScript's `toLowerCase` also maps letters of other scripts. The tracking pattern's `i` flag folds only ASCII, so `BookingPortal.TrackingAt` is exact.
- `UriComponent.Encode`: strings are sequences of Unicode scalar values. The lone surrogates for which `encodeURIComponent` throws a `URIError` cannot be expressed.

## Findings

| source | as written | input that shows it | evidently intended | confidence | as-written member | corrected member |
|---|---|---|---|---|---|---|
| automation/jt_booking.js:89 | `printSummary` runs before `sendResultsToBackend`, which sets `results.total` at line 368, so "Total Orders" prints the initial 0 | `--bulk` with one order that books | "Total Orders" shows the number of orders processed, equal to succeeded plus failed | high; not executed | `BookingRun.SummaryAsPrinted` (`BookingRun.PrintedTotalDisagrees`) | `BookingRun.CorrectedSummary` |

`BookingRun.BookingScript.Run` prints `SummaryAsPrinted`, as the script does. The callback it posts carries the counts of `CorrectedSummary`.
