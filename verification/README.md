# bitestats — a Dafny model of the order harvest, normalisation and dashboard

bitestats is a browser extension. It collects a user's Grubhub and DoorDash
order history and shows spending statistics. This project models its core in
Dafny and proves properties of that model:

- **Grubhub harvest.** The content script runs on grubhub.com and picks a page
  size: 10 when nothing is stored, 2 otherwise. It reads the OAuth token
  cookie and the account uuid. It then pages through `search_listing`, keeps
  only orders whose ids are not already stored, stamps each page's new orders
  with one `fetchedAt`, and stops at the first page with nothing new or when
  the pager says there are no more pages. The result goes to the background
  script as a `storeGrubhubData` message (`GrubhubContent`, `GrubhubApi`,
  `Remote`).
- **Background script.** Its own `fetchAllPages` pages through every
  Grubhub order with page size 10. On success it removes the DoorDash
  collection and replaces the Grubhub one. A message router serves
  `fetchGrubhubData`, `fetchDoorDashData`, `getOrderInsights` and
  `storeDoorDashData` over the extension store. Here the store is a class
  holding a key→value map (`Background`, `Extension`).
- **DoorDash scripts.** The older script pages through the GraphQL order
  list with offsets 0, 10, 20, … and sends every order it gets. The newer
  script collects only order uuids, then makes one post-checkout lookup and
  one receipt lookup per uuid. Both read the `csrf_token` cookie with a
  regular expression (`DoorDashApi`, `DoorDashContent`, `DoorDashDetails`,
  `Cookies`).
- **Normalisation.** `OrderData.fromGrubhub` and `OrderData.fromDoorDash`
  map the two raw schemas onto one order record, using JavaScript `||`
  defaults. The two subclasses add their platform's own fields
  (`OrderData`, `GrubhubOrderData`, `DoorDashOrderData`).
- **Dashboard.** It filters orders and computes per-order totals and the KPI
  figures. It groups orders by month, restaurant and dish, takes top-10
  lists and counts time-of-day buckets. The bar chart shows the first five
  entries with labels word-wrapped at 15 characters (`Dashboard`, `Groups`,
  `BarChart`).

## How the world is modelled

- The network is a finite script of replies. Reply `k` answers the `k`-th
  request, and a request past the end of the script is rejected. Each loop
  method also returns the requests it made, so their order and parameters
  can be stated.
- The DoorDash detail lookups are functions from uuid to reply.
- Clocks are functions from a stamp index to an ISO string.
- `JSON.parse`, `decodeURIComponent` and `new Date` are parameters that may
  fail.
- Dates are abstracted to integer day, hour and month keys.
- A JSON property where `undefined` and `null` behave differently (a date,
  a dish name, a payment amount) has three states: missing, `null` or
  present. Elsewhere `x || d` and `?.` treat the two alike, and the
  property is an `Option`.
- String lengths are counted in UTF-16 code units, as JavaScript's
  `.length` does.
- Money is kept in integer cents.
- Messages a script sends are returned as a sequence. The reply a script
  gets to its own `sendMessage` is a parameter.
- Each loop in the source is a method with a `while` loop. It is proved
  equal to a recursive function that states the run, and the properties
  are lemmas about that function.

## Model

| member | source | states |
|---|---|---|
| Remote.FetchDataFromApi | content/grubhub_content.js:112-130 | A reply is read only when it arrived, is ok and parses as JSON. Otherwise the error is a network rejection, `HTTP error! status: N`, or `Invalid JSON response`. A falsy JSON value (`null`, `false`, `0`, `""`) gives no data. |
| Remote.ReadJson | public/content/doordash_content.js:87 | `response.json()` fails on a rejected or unparsable reply and ignores the HTTP status. |
| Remote.ReadingsAgreeOnOk | background.js:1-19 | On an ok reply the two readings agree. On a non-ok reply with a parsable body only `fetchDataFromAPI` fails. |
| GrubhubApi.ReadPage | content/grubhub_content.js:89-91 | A page is accepted exactly when the fetch succeeded and the body has both `results` and `pager`. A fetch error passes through. A body that fetched but lacks either field gives `Invalid data structure`. |
| GrubhubApi.ExtendTwice | content/grubhub_content.js:100 | Pushing two batches one after the other equals pushing them together. |
| GrubhubContent.ChoosePolicy | content/grubhub_content.js:26-33 | With no stored orders: page size 10 and an empty known-id set. Otherwise: page size 2, and the known set is exactly the stored orders' ids. |
| GrubhubContent.UnseenMembers | content/grubhub_content.js:93 | A record survives the filter iff it came from the page and its id is not known. |
| GrubhubContent.NewResultsMembers | content/grubhub_content.js:92-96 | A page's new records are exactly its unknown records, each stamped with the one page timestamp. |
| GrubhubContent.KeptIsStamped | content/grubhub_content.js:93-96 | Every record the stamp step outputs is an input record with `fetchedAt` set to the page timestamp. |
| GrubhubContent.StampedIsKept | content/grubhub_content.js:93-96 | Every input record appears in the output with the page timestamp. |
| GrubhubContent.RestampFields | content/grubhub_content.js:49-52 | Restamping sets every order's `fetchedAt` to the clock's value and leaves all its other fields unchanged. |
| GrubhubContent.HarvestFrom | content/grubhub_content.js:85-103 | A run always makes at least one request, and the first one is for the given page with the policy's page size. |
| GrubhubContent.FetchAllPages | content/grubhub_content.js:79-110 | The do-while loop returns the stored data followed by the harvest, or the harvest's error. It makes exactly the harvest's requests. |
| GrubhubContent.HarvestSkipsKnown | content/grubhub_content.js:93 | Every record a successful harvest adds has an id outside the known set. The set is never extended during the run. |
| GrubhubContent.HarvestCollectsPages | content/grubhub_content.js:82-100 | A successful harvest is the concatenation of each requested page's new records, in page order. |
| GrubhubContent.CollectsOneMore | content/grubhub_content.js:97-103 | A run that is one page with new records in front of the rest of the run makes one more request than the rest, and on success returns that page's new records followed by the rest's. |
| GrubhubContent.HarvestUsesPageSize | content/grubhub_content.js:70-86 | Every request uses the chosen page size. |
| GrubhubContent.HarvestFollowsPager | content/grubhub_content.js:101-103 | Every request after the first asks for the previous reply's `current_page + 1`. It is made only when that reply was well formed, had new records, and had `current_page + 1 <= total_pages`. |
| GrubhubContent.HarvestEnds | content/grubhub_content.js:97-107 | The run fails iff its last reply failed, and then with that reply's error, with no partial result. A successful run ends at a page with no new records or without more pages. The number of requests is bounded by the reply script. |
| GrubhubContent.FindTokenCookie | content/grubhub_content.js:142-150 | The `forEach` over the cookies computes the scan function: the decoded value of the last `ngStorage-oauthTokens` cookie, or null. |
| GrubhubContent.ScanStopsAtError | content/grubhub_content.js:148 | Once a decoding failure has been thrown, later cookies change nothing. |
| GrubhubContent.LastTokenCookieWins | content/grubhub_content.js:145-150 | When every token cookie decodes, the result is the decoded value of the last one. |
| GrubhubContent.NoFailureWithoutBadCookie | content/grubhub_content.js:148 | The scan fails iff some token cookie's value fails to decode. |
| GrubhubContent.NoTokenCookie | content/grubhub_content.js:143 | Without a token cookie the value stays null. |
| GrubhubContent.CookieFields | content/grubhub_content.js:146 | The name is the text before the first `=`, and the value is the text between the first and second `=`. A cookie without `=` has the value "undefined". |
| GrubhubContent.GetGrubhubAuthDetails | content/grubhub_content.js:140-171 | Returns `{}` unless both the token cookie and a `ud_id` are truthy. Otherwise returns the parsed `access_token` with the uuid. A decode or parse failure throws. |
| GrubhubContent.FetchGrubhubData | content/grubhub_content.js:39-67 | With a falsy token or uuid: no request and no message. Otherwise the requests are the harvest's. A failed harvest sends nothing. A successful one sends one `storeGrubhubData` holding the restamped orders, then `dataStored` only on a `success` reply. |
| GrubhubContent.CheckAndFetchGrubhubData | content/grubhub_content.js:21-37 | The page-size policy is chosen from the stored collection. A failed auth lookup, or a falsy token or uuid, fetches nothing. Otherwise the requests are the harvest's under that policy. A failed harvest sends nothing. A successful one sends exactly one `storeGrubhubData` with the restamped new orders, then `dataStored` only on a `success` reply. Every order sent has an id outside the stored ids. |
| GrubhubContent.Start | content/grubhub_content.js:6-9 | Loading the script sets `fetching: true` and changes nothing else in the store. Then it does what `checkAndFetchGrubhubData` does against the orders stored before: no request or message without both credentials, otherwise the harvest's requests under the stored orders' policy, and on success exactly one `storeGrubhubData` of the restamped new orders, followed by `dataStored` only on a `success` reply. |
| GrubhubContent.OnMessage | content/grubhub_content.js:12-19 | Only `fetchData` starts a fetch, which does what `checkAndFetchGrubhubData` does: the same requests, and exactly the store message (plus `dataStored` on a `success` reply) when the harvest succeeds. It is answered `success` because the errors are caught inside. Any other message gets no reply and does nothing. |
| Extension.ExtensionStore.Get | background.js:76-80 | A key reads back its stored value, or nothing when absent. |
| Extension.ExtensionStore.Set | background.js:50 | Setting a key replaces exactly that key's value. |
| Extension.ExtensionStore.Remove | background.js:42 | Removing a key drops exactly that key. |
| Extension.StoredGrubhubOrders | content/grubhub_content.js:132-138 | A missing Grubhub collection reads as `[]`. |
| Background.CollectFrom | background.js:27-36 | A run always requests its first page with page size 10. |
| Background.CollectPages | background.js:21-40 | The do-while loop computes the collection function: its result and its requests. |
| Background.CollectKeepsEverything | background.js:33 | A successful run is every result of every page, in page order, with no filtering. |
| Background.CollectFollowsPager | background.js:22-36 | The first request is page 1. Each later request asks for the previous reply's `current_page + 1`, and is made exactly while that is `<= total_pages`. |
| Background.CollectEnds | background.js:29-40 | The run fails iff its last reply failed, with that error. A successful run ends at a page without more pages. |
| Background.FetchAllPages | background.js:21-52 | On success `doordashOrderResults` is removed and `grubhubOrderResults` is replaced wholesale. On failure the store is unchanged. |
| Background.OnMessage | background.js:54-97 | `fetchGrubhubData` with token and uuid replies `success` after the store write, or `error` with the store unchanged. `getOrderInsights` replies with both collections and changes nothing. `storeDoorDashData` overwrites the DoorDash collection and replies `success`, or `error` with the store unchanged when storage fails. Unhandled messages get no reply and change nothing. |
| DoorDashApi.ReadListPage | content/doordash_content.js:213-219 | A page continues the loop iff its JSON has a non-empty `data.getConsumerOrdersWithDetails`. It ends the loop on a falsy body, a missing `data` or an empty list. A missing list throws a TypeError. A read failure passes through. |
| DoorDashApi.ListFrom | content/doordash_content.js:53-220 | The first request is at the given offset with limit 10. |
| DoorDashApi.ListOffsets | content/doordash_content.js:48-216 | The i-th request is at offset `start + 10 * i` with limit 10. |
| DoorDashApi.ListConcatenates | content/doordash_content.js:215 | A successful run is the concatenation of all non-empty pages in request order, with no dedup. |
| DoorDashApi.ListEnds | content/doordash_content.js:214-219 | Every page before the last continued the loop. The run fails iff the last page failed, with that error. A successful run ends at a page that is empty or lacks `data.data`. |
| DoorDashContent.FetchAllPages | content/doordash_content.js:47-223 | The while loop computes the listing function: its result and its offset requests. |
| DoorDashContent.FetchDoorDashData | content/doordash_content.js:7-45 | A cookie decoding failure sends nothing and requests nothing. Otherwise the requests are the listing's. A listing failure sends nothing. Success sends exactly one `storeDoorDashData` carrying all listed orders. |
| Cookies.GetCookieValue | content/doordash_content.js:225-228 | Null when the pattern matches nowhere. Otherwise the decoded text after `csrf_token=` up to the next `;`, or the decoding error. |
| Cookies.FirstMatch | public/content/doordash_content.js:279-282 | The leftmost position where the pattern matches. No earlier position matches. |
| Cookies.MatchIsExactName | content/doordash_content.js:226 | The matched name is exactly `csrf_token`, and it sits at the start or after a `;` and white space. The raw value holds no `;`. |
| Cookies.LeadingCookie | content/doordash_content.js:226-227 | A cookie string starting with `csrf_token=v` followed by `;` or the end yields the decoded `v`. |
| Cookies.AbsentCookie | content/doordash_content.js:227 | Without `csrf_token=` the result is null. |
| DoorDashDetails.Uuids | public/content/doordash_content.js:89 | One entry per listed order: its `orderUuid`, in order. |
| DoorDashDetails.FetchOrderUuids | public/content/doordash_content.js:64-97 | The while loop returns the uuids of the offset/limit listing in page order, or its failure. It makes exactly the listing's requests. |
| DoorDashDetails.UuidsAppend | public/content/doordash_content.js:89 | Mapping to uuids distributes over concatenation. |
| DoorDashDetails.ReadDetail | public/content/doordash_content.js:155-156 | A lookup yields the JSON's `data`, for the post-checkout and receipt lookups alike (lines 275-276 read the receipt the same way). It fails iff the read fails or the body is `null`. A read failure passes through, a `null` body throws a TypeError, and a `false`, `0` or `""` body yields no data. |
| DoorDashDetails.FetchDetails | public/content/doordash_content.js:41-49 | The `for…of` loop computes the detail function: its entries and the lookups made. |
| DoorDashDetails.DetailsStopAtError | public/content/doordash_content.js:37-61 | After the first failed lookup the rest of the uuids are not looked up. |
| DoorDashDetails.DetailsOnePerUuid | public/content/doordash_content.js:41-49 | On success there is exactly one `{uuid, postCheckoutData, orderReceiptData}` per uuid, in uuid order. The lookups alternate post-checkout, then receipt. |
| DoorDashDetails.DetailsFailWhole | public/content/doordash_content.js:37-61 | The batch fails iff some uuid's lookup fails, that is, its read fails or its body is `null`. There is no per-item catch. |
| DoorDashDetails.FetchDoorDashData | public/content/doordash_content.js:11-62 | A listing or lookup failure sends nothing. Success sends one `storeDoorDashData` with the detail entries, then `dataStored` only on a `success` reply. |
| DoorDashDetails.OnMessage | public/content/doordash_content.js:5-9 | `fetchData` does what `fetchDoorDashData` does: a cookie failure requests nothing; the listing requests are made; a listing or lookup failure sends nothing; success sends one `storeDoorDashData` with the detail entries, then `dataStored` only on a `success` reply. Other messages request and send nothing. The listener never replies. |
| OrderData.OrOne | src/services/OrderData.js:47 | `x \|\| 1`: a truthy quantity is kept, and a missing or zero one becomes 1, so the result is never 0. |
| OrderData.OrText | src/services/OrderData.js:7 | `x \|\| text` keeps a non-empty string and gives `text` for a missing or empty one. |
| OrderData.ParseDate | src/services/OrderData.js:18-25 | The result is null iff the date is missing or does not parse. A `null` date is `new Date(null)`, the epoch. A string gives the calendar's reading. |
| OrderData.NewOrder | src/services/OrderData.js:2-16 | `state` is copied. Every falsy amount becomes 0, `giftCards` takes `giftCardCredit`, missing `lineItems` become `[]`, and a falsy `restaurantName` becomes `'Unknown'`. |
| OrderData.NewOrderIsFixpoint | src/services/OrderData.js:2-16 | Feeding a constructed order's fields back into the constructor gives the same order. |
| OrderData.PaymentTotal | src/services/OrderData.js:30-34 | No `payments` object gives 0. An object without its `payments` array throws. |
| OrderData.SumOfKindIsSum | src/services/OrderData.js:31-33 | With no amount of that type missing, the reduce is the sum of that type's amounts, where a `null` amount adds 0. One missing amount makes it NaN. |
| OrderData.PaymentTotalIsSum | src/services/OrderData.js:30-58 | With no amount of that type missing, the gift-card or promo total is the sum of that type's amounts, `null` ones counting 0. |
| OrderData.PaymentWithoutAmountGivesZero | src/services/OrderData.js:32-33 | A payment of that type with no `amount` property turns the total into `NaN \|\| 0`, that is 0. |
| OrderData.GhLineItem | src/services/OrderData.js:40-49 | Name and quantity are copied, `originalItemPrice` defaults to 0, and there is one option per raw option with price defaulting to 0 and quantity to 1. Missing `options` throws. |
| OrderData.GhLineItems | src/services/OrderData.js:40-49 | One line item per raw line item, in order. Fails iff some item lacks `options`. |
| OrderData.FirstRestaurantName | src/services/OrderData.js:50 | The first restaurant's truthy name. `'Unknown'` when there is no restaurant list, the list is empty, or the first name is missing or empty. |
| OrderData.FromGrubhub | src/services/OrderData.js:27-60 | `state` is copied and the date is parsed from `time_placed`. Each charge takes its `\|\| 0` default, and it is 0 when `charges` or its sub-object (`fees`, `taxes`, `tip`, `donations`) is missing. Line items are mapped. The restaurant is the first restaurant's. Gift-card and promo totals come from the payments. Fails exactly on the throwing inputs. |
| OrderData.FindCharge | src/services/OrderData.js:68 | `find` returns the first receipt line with that `chargeId`, or none. |
| OrderData.ChargeAmountFirstMatch | src/services/OrderData.js:67-70 | Lines after the first match never change a fee. A non-zero fee is the `unitAmount` of a first matching line. |
| OrderData.MapDd | src/services/OrderData.js:74-79 | One line item per raw item, in order. |
| OrderData.DdLineItem | src/services/OrderData.js:74-79 | The name and quantity are copied. The price is `originalItemPrice \|\| 0`. The extras are the given list, or `[]` when it is missing. |
| OrderData.FlattenFromIsConcat | src/services/OrderData.js:73-81 | The reduce succeeds iff every sub-order has `items`. It then equals the concatenation of all sub-orders' mapped items, in order. |
| OrderData.FromDoorDash | src/services/OrderData.js:62-98 | `state` is `'CANCELLED'` iff `cancelledAt` is truthy, else `'COMPLETED'`. The date is parsed from `createdAt`. `dinerGrandTotal` is `grandTotal?.unitAmount \|\| 0`. `lineItems` are all sub-orders' items flattened in order, the store name is used or `'Unknown'`, and `donation` is 0. Fees are 0 without receipt lines. Fails iff some sub-order lacks `items`. |
| OrderData.FromDoorDashFees | src/services/OrderData.js:65-95 | Each fee is the amount of the first receipt line with its charge id: SUBTOTAL, SERVICE_FEE, DELIVERY_FEE, TAX, TIP, PROMOTION_DISCOUNT and CREDITS. |
| GrubhubOrderData.NewGrubhubOrder | src/services/GrubhubOrderData.js:4-12 | Base fields come from the `OrderData` constructor. Missing `adjustments` becomes `{}` and `fraud` becomes false. Missing `brand` and times become `''`. The snake_case inputs map to camelCase fields. |
| DoorDashOrderData.NewDoorDashOrder | src/services/DoorDashOrderData.js:4-31 | Base fields come from the `OrderData` constructor. Flags default to false and `pollingInterval` to 0. Strings default to `''`, lists to `[]` and objects to `{}`. `bundleOrderInfo`, `recurringOrderDetails` and a falsy `fulfilledAt` become null. |
| Dashboard.FilterOrders | src/pages/Dashboard.js:36-41 | The filter keeps a subsequence, and every kept order is shown. |
| Dashboard.FilterKeepsExactly | src/pages/Dashboard.js:36-41 | An order is kept iff it is `"COMPLETED"` and its day lies in the inclusive range, where a null bound is open. |
| Dashboard.FilterConcat | src/pages/Dashboard.js:36 | Filtering distributes over concatenation, so order is kept. |
| Dashboard.CalculateTotal | src/pages/Dashboard.js:48-60 | A positive `dinerGrandTotal` is the total. Otherwise the total is the sum over items of (extras or options subtotal + `originalItemPrice`) × `quantity`. |
| Dashboard.ItemsCostConcat | src/pages/Dashboard.js:52-59 | The item sum is additive over concatenation. |
| Dashboard.TotalNotNegative | src/pages/Dashboard.js:48-60 | With no negative prices or quantities the total is not negative. |
| Dashboard.RestaurantsAtMostOrders | src/pages/Dashboard.js:63-64 | `totalRestaurants <= totalOrders`, and it is at least 1 when there is an order. |
| Dashboard.OrderEntries | src/pages/Dashboard.js:70-105 | Each order contributes its `calculateTotal` and a count of 1 under its key. |
| Dashboard.GroupOrders | src/pages/Dashboard.js:70-112 | The reduce over orders computes the grouping function of the order entries. |
| Dashboard.OrderGroupsConserve | src/pages/Dashboard.js:62-80 | Group counts sum to the number of orders, and group money sums to the money spent. |
| Dashboard.MonthGroupsConserve | src/pages/Dashboard.js:62-80 | Month groups' `orderCount`s sum to `totalOrders` and their `moneySpent`s to `totalMoneySpent`. |
| Dashboard.RestaurantGroupsMatchKpis | src/pages/Dashboard.js:64-112 | There is one restaurant group per distinct name, so the group count equals `totalRestaurants`. Their counts sum to `totalOrders`. |
| Dashboard.RestaurantKeys | src/pages/Dashboard.js:64-107 | The restaurant keys are exactly the set of restaurant names. |
| Dashboard.ItemEntries | src/pages/Dashboard.js:85-97 | Each item contributes its cost × quantity, its quantity, and the order's restaurant, under its name. |
| Dashboard.DishData | src/pages/Dashboard.js:84-100 | The nested reduce and `forEach` compute the grouping function of the dish entries. A dish is keyed by its name, a missing name by `"undefined"` and a `null` one by `"null"`. |
| Dashboard.AddItems | src/pages/Dashboard.js:85-98 | The inner `forEach` adds each item of one order to the dictionary, in order. |
| Dashboard.DishGroup | src/pages/Dashboard.js:84-100 | A dish's `orderCount` is the sum of the quantities of same-named items. Its `restaurantName` is that of the first order in which it appears. A dish nobody ordered has no group. |
| Dashboard.DishCountsConserve | src/pages/Dashboard.js:65-100 | Dish counts sum to `totalItemsOrdered`. |
| Dashboard.OrderTimings | src/pages/Dashboard.js:118-128 | The reduce computes the bucket tally. |
| Dashboard.TimingsCountTimed | src/pages/Dashboard.js:118-128 | Hours 5–11, 12–16 and 17–23 fill the three buckets. Their sum is the number of orders with such an hour, which is at most the filtered count, with equality iff every order has one. |
| Groups.Find | src/pages/Dashboard.js:74 | A label's group is found iff the label has a group. |
| Groups.Add | src/pages/Dashboard.js:74-78 | Adding an entry creates its group when missing and adds the entry's money and count to it. Every other group is unchanged, labels stay distinct, and the totals grow by exactly the entry's money and count. |
| Groups.GroupsOf | src/pages/Dashboard.js:70-80 | Grouping gives distinct labels, exactly the entries' keys, and conserves counts and money. |
| Groups.GroupOfKey | src/pages/Dashboard.js:93-97 | A key's group holds the sum of its entries' money and counts, and the extra field of its first entry. |
| Groups.FirstExtra | src/pages/Dashboard.js:93-95 | The extra field comes from the first entry with that key. |
| Groups.DistinctLabelsCount | src/pages/Dashboard.js:64-108 | Distinct labels mean the number of groups is the number of labels. |
| Groups.Insert | src/pages/Dashboard.js:114-115 | Inserting into a sorted list keeps it sorted non-increasing and adds exactly that group. |
| Groups.SortDesc | src/pages/Dashboard.js:114-115 | The sort output is non-increasing by the chosen measure and a permutation of its input. |
| Groups.TopTen | src/pages/Dashboard.js:114-115 | The top list has `min(n, 10)` entries, sorted non-increasing, and drawn from the groups. |
| Groups.TopTenKeepsLargest | src/pages/Dashboard.js:114-115 | Every group left out of the top list measures at most every group in it. |
| BarChart.SplitLabel | src/components/Dashboard/BarChart.js:23-42 | The `forEach` loop computes the wrapping function, measuring `(line + word).length` in UTF-16 code units. |
| BarChart.AtLeastOneLine | src/components/Dashboard/BarChart.js:24-41 | The result always has at least one line, even for the empty label. |
| BarChart.BreakExactlyWhenTooLong | src/components/Dashboard/BarChart.js:29-34 | A line is closed exactly when the current line plus the next word exceeds the limit. The closed line is trimmed and the new line is the word and a space. Otherwise the word and a space are appended. |
| BarChart.LinesOnlyGrow | src/components/Dashboard/BarChart.js:30 | Closed lines are never changed afterwards. |
| BarChart.FirstLineEmptyWhenFirstWordTooLong | src/components/Dashboard/BarChart.js:26-31 | If the first word alone exceeds the limit, the first output line is the empty string. |
| BarChart.WrapFits | src/components/Dashboard/BarChart.js:29-34 | Every closed line fits, or is a single word. |
| BarChart.LongLineIsOneWord | src/components/Dashboard/BarChart.js:29-38 | Any output line longer than the limit is a single word. |
| BarChart.RoundTrip | src/components/Dashboard/BarChart.js:24-39 | For non-empty words separated by single spaces, joining the non-empty output lines with one space gives back the label. |
| BarChart.ChartBars | src/components/Dashboard/BarChart.js:47-55 | At most the first 5 items are shown. Each label is wrapped at 15 characters, and the value is the order count or the money, by the toggle. |
| BarChart.BarsDescend | src/components/Dashboard/BarChart.js:49-55 | Bars drawn from a top list are in non-increasing order. |

## Left out

- Network I/O is not modelled: `fetch`, URL templates, request headers and the GraphQL query texts. A request is recorded as its page number and size, or its offset and limit.
- Replies are a finite script, so the server-driven loops are bounded by it. A server that never ends its listing is not modelled.
- `JSON.parse`, `decodeURIComponent`, `localStorage` and `new Date` are parameters. The store reply a content script receives is a parameter too.
- The extension store is a key→value map inside one object. `chrome.storage` callbacks, their asynchrony and unawaited writes are not modelled, and the steps run in sequence.
- Background.FetchAllPages: the `lastError` of the DoorDash removal is only logged by the source, so it is not modelled.
- Background.OnMessage: `fetchDoorDashData` calls `fetchDoorDashOrders`, which is defined nowhere in the background script. The model gives that message no reply and no store change.
- GrubhubContent.FetchGrubhubData: the background script never handles `storeGrubhubData`, so in the real extension the reply callback runs with `response` undefined (and `chrome.runtime.lastError` set). Reading `response.status` (content/grubhub_content.js:57) then throws a TypeError inside the callback, and `dataStored` is never sent. The model takes the reply as a parameter and sends `dataStored` only on `success`.
- BarChart.ChartBars: a dish group's label is the key text, so a nameless dish is drawn as `undefined` or `null`. In the source the label is the name itself, `undefined` or `null`, and `label.split` (src/components/Dashboard/BarChart.js:24) throws a TypeError once such a dish is among the five bars drawn.
- Strings are sequences of Unicode scalar values. Lone UTF-16 surrogates, which a JavaScript string may hold, are not modelled.
- DoorDashDetails.OnMessage: the newer DoorDash listener never calls `sendResponse`, so it is modelled as giving no reply.
- Dates and time are abstracted: `dayjs`, the `'MMMM YYYY'` month labels and the sort of month labels by date (src/pages/Dashboard.js:82) are left out. Month groups keep insertion order and are keyed by an integer month.
- Floating point is left out: `averageOrderPrice` (src/pages/Dashboard.js:68) and the `/100` chart values (src/components/Dashboard/BarChart.js:55). Money stays in integer cents.
- NaN from a missing quantity or price in `calculateTotal` is not modelled: quantities and prices are integers there.
- Object key order for integer-like keys and inherited prototype keys in the grouping dictionaries is not modelled. Groups keep first-insertion order.
- Groups.SortDesc: sortedness and permutation are proved. Stability is not: ties keep their original order, but no lemma states it.
- The UI components, popups, `useOrderData`, `formatErrorLog` and console logging are left out.
- The `fetching` flag is set once and never cleared, as in the source. No guard against concurrent runs is modelled.

## Findings

No findings are claimed.
