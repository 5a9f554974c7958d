# qreserve pricing, loyalty and request rules in Dafny

qreserve is a service-booking site (hotels, cars, gyms, salons, halls, activities,
flights, playgrounds, restaurants) built on Next.js and Prisma. This project models
the parts of it that decide money and visibility, and proves what they promise:

- the price rule that stacks signup, loyalty and promotion discounts
  (`DiscountCalculator`);
- the count-based loyalty tiers and their per-user row (`LoyaltyManager`);
- the spend-based loyalty accumulator (`LoyaltyDiscountManager`). The two loyalty
  variants are kept apart, as in the code: they use different formulas and give
  `isUsed` different meanings;
- the login route's lookup and discount summary (`Login`);
- the browser cart (`Cart`) with its checkout page (`Checkout`) and
  pending-reservations page (`PendingReservations`);
- the search route's parameter reading and filter construction (`Search`);
- the services route's include map, relation flattening and service creation
  (`Services`);
- the seller and admin pending/approved split (`ServiceApproval`);
- the chat route's keyword fallback and message log (`Chat`);
- the admin chat monitor's search box (`AdminChatMonitoring`).

`Wrappers`, `Seqs` and `JsText` are shared helpers:

- `Wrappers` holds Option and Result.
- `Seqs` holds an order-keeping filter, with its membership, subsequence,
  partition and append lemmas.
- `JsText` holds the string and number operations the routes rely on:
  lower-casing, `includes`, `endsWith`, `Number`/`parseFloat` on decimal numerals,
  and `parseInt` without a radix (leading white space, sign, `0x` prefix).

External effects are inputs:

- The database is a `map` or `seq` field of a class, or a sequence argument.
- A failing database call is a fault argument that names which call throws.
- `bcrypt.compare` is a predicate argument and the signed JWT a string argument. A `LoginFault` argument names the call inside the login route's `try` that throws: the store lookup, `bcrypt.compare` or `jwt.sign`.
- `Math.random()` is a real `rand` in [0, 1).
- The completion API's answer is an `Option`: None means the call threw.
- An HTTP response's `ok` flag is a boolean argument.
- Browser storage is a map from user email to cart.

Money is `real`. JavaScript truthiness is written out: None, 0 and "" are falsy.

Stateful handlers are classes whose methods state their whole new state with
`old(...)`. Each one is proved against a specification function:

- `CalculateDiscountedPrice` against `Priced`;
- `SelectTier` against `AppliedTier`;
- `BuildFilters` against `ConditionsOf`.

## Model

| member | source | states |
|---|---|---|
| DiscountCalculator.CalculateDiscountedPrice | src/utils/discountCalculator.js:7-77 | The three guarded subtract-and-push steps yield exactly `Priced`. Each eligible line is computed from the original price. Lines come in signup, loyalty, promotion order. finalPrice = max(0, original − sum of lines), totalDiscount = original − finalPrice, and finalPrice is never negative. |
| DiscountCalculator.DiscountAmount | src/utils/discountCalculator.js:14-20 | A PERCENTAGE discount takes original·d/100. Any other type string takes the flat value d. |
| DiscountCalculator.EntriesTotal | src/utils/discountCalculator.js:8-60 | The left-to-right sum of the receipt equals the sum of the three lines' amounts. This is what the running `finalPrice -=` subtracts. |
| DiscountCalculator.PriceBounds | src/utils/discountCalculator.js:68-74 | finalPrice ≥ 0. finalPrice = max(0, original − Σ amounts). totalDiscount = min(original, Σ amounts), so it is ≤ original for a non-negative price. |
| DiscountCalculator.TotalDiscountInRange | src/utils/discountCalculator.js:69-74 | With a non-negative price and non-negative discount values, 0 ≤ totalDiscount ≤ originalPrice. |
| DiscountCalculator.AmountNonNegative | src/utils/discountCalculator.js:16-20 | A non-negative discount on a non-negative price takes a non-negative amount. A percentage of at most 100 takes at most the price. |
| DiscountCalculator.EntryAmount | src/utils/discountCalculator.js:12-64 | Every line's amount is Amount(original, its own discount), never a share of the running price. |
| DiscountCalculator.AmountByType | src/utils/discountCalculator.js:16-20 | PERCENTAGE gives amount·100 = original·d. Every other type gives d. |
| DiscountCalculator.EntriesOrdered | src/utils/discountCalculator.js:23-65 | There are at most three lines and their sources strictly increase: SIGNUP < LOYALTY < PROMOTION. |
| DiscountCalculator.Eligibility | src/utils/discountCalculator.js:12-64 | Signup appears iff present and not used. Loyalty appears iff present, whatever its isUsed. Promotion appears iff passed. Descriptions are "New user discount", "Loyalty discount" and the promotion title. |
| DiscountCalculator.NoDiscounts | src/utils/discountCalculator.js:8-76 | With no discounts the full price is charged and no line is listed. A used signup discount gives the same result as none. |
| DiscountCalculator.SignupAndLoyaltyExample | src/utils/discountCalculator.js:7-77 | 200 with 10% signup and flat 15 loyalty: lines 20 then 15, final 165, total discount 35. |
| DiscountCalculator.ClampExample | src/utils/discountCalculator.js:68-69 | 50 with a flat 100 discount is clamped to 0, total discount 50. |
| DiscountCalculator.NoCompoundingExample | src/utils/discountCalculator.js:16-41 | Two 50% discounts on 100 take 50 + 50, so the final price is 0. They do not compound to 75. |
| LoyaltyManager.MetPrefix | src/utils/loyaltyManager.js:22-28 | The scan's stopping point k: every tier before k is met, and tier k (if any) is missed. |
| LoyaltyManager.SelectTier | src/utils/loyaltyManager.js:21-28 | The for/break loop returns AppliedTier. The chosen tier is in the table with threshold ≤ count. The result is null iff the first threshold is missed. |
| LoyaltyManager.TierTable | src/utils/loyaltyManager.js:14-28 | count < 5 gives null, 5–9 the 5% tier, 10–19 the 10% tier, ≥ 20 the 15% tier. |
| LoyaltyManager.TierExamples | src/utils/loyaltyManager.js:14-28 | Counts 0, 4, 5, 9, 10, 19, 20, 25 give 0, 0, 5, 5, 10, 10, 15, 15. |
| LoyaltyManager.MetPrefixMonotone | src/utils/loyaltyManager.js:22-28 | On any table, a larger count never stops the scan earlier. |
| LoyaltyManager.TierDiscountMonotone | src/utils/loyaltyManager.js:14-28 | The selected discount is non-decreasing in the completed-reservation count. |
| LoyaltyManager.FirstMissStops | src/utils/loyaltyManager.js:23-27 | Once tier j is missed, no tier at or after j is chosen. |
| LoyaltyManager.GapExample | src/utils/loyaltyManager.js:22-27 | On an unordered table a later met tier is skipped: count 12 against thresholds [15, 5] gives null. |
| LoyaltyManager.RetieredKeepsOtherFields | src/utils/loyaltyManager.js:40-47 | An update writes only discount, discountType and threshold. userId and isUsed are kept, and table tiers write PERCENTAGE. |
| LoyaltyManager.LoyaltyStore.CheckAndUpdateLoyaltyStatus | src/utils/loyaltyManager.js:6-64 | A returned row is always the user's own row. No tier or a failing read: null and no write. Same discount: the row is returned and nothing written. Different discount: only the three tier fields are updated. No row: one is created with the tier's values and PERCENTAGE. A failing write: null. |
| LoyaltyDiscountManager.CalculateDiscount | src/utils/loyaltyDiscountManager.js:53-57 | The result is ≤ 25. For spend ≥ 0 it is one of 0, 10, 20, 25. Below 100 it is ≤ 0. |
| LoyaltyDiscountManager.DiscountTiers | src/utils/loyaltyDiscountManager.js:53-57 | [0,100) gives 0, [100,200) gives 10, [200,300) gives 20, and 300 or more gives 25. |
| LoyaltyDiscountManager.DiscountMonotone | src/utils/loyaltyDiscountManager.js:55-56 | More spend never lowers the discount. |
| LoyaltyDiscountManager.NextTierThreshold | src/utils/loyaltyDiscountManager.js:59-62 | The next tier is a multiple of 100 strictly above the spend. For a whole-number spend it is the smallest such multiple. |
| LoyaltyDiscountManager.FractionalSpendSkipsTier | src/utils/loyaltyDiscountManager.js:59-62 | A spend of 99.5 gives 200, not 100. |
| LoyaltyDiscountManager.AccumulateTwice | src/utils/loyaltyDiscountManager.js:30-43 | Two accumulations equal one accumulation of the combined amount. |
| LoyaltyDiscountManager.AccumulateRaises | src/utils/loyaltyDiscountManager.js:30-43 | Adding a non-negative amount never lowers the discount, and keeps the next tier above the new total. |
| LoyaltyDiscountManager.DefaultDetailsAgree | src/utils/loyaltyDiscountManager.js:70-77 | The no-row defaults (discount 0, next tier 100) equal the formulas at zero spend. |
| LoyaltyDiscountManager.SpendLedger.UpdateLoyaltyDiscount | src/utils/loyaltyDiscountManager.js:6-51 | A returned row is always the user's own row. No row: one is created from the amount. A used row is returned unchanged and the spend is not added. Otherwise totalSpent grows by exactly the amount, with discount and next tier recomputed. A store failure is an error and nothing is written. |
| LoyaltyDiscountManager.SpendLedger.GetLoyaltyDiscountDetails | src/utils/loyaltyDiscountManager.js:64-89 | An error iff the read fails. Without a row: {0, 0, 100, false}. Otherwise the row's four values. |
| Login.DiscountInfoOf | src/app/api/login/route.js:51-59 | hasSignupDiscount is truthy iff a signup row exists and is unused. hasLoyaltyDiscount iff a loyalty row exists. Amounts and threshold default to 0 and types to null. |
| Login.FindFirst | src/app/api/login/route.js:22-30 | Returns the first user whose email or phone equals the identifier, or none when no user matches. |
| Login.RoleOf | src/app/api/login/route.js:69 | The user's role, or "BUYER" when it is missing or empty. |
| Login.LoginRequest | src/app/api/login/route.js:8-80 | 400 iff identifier or password is missing. A throwing store gives 500 "Internal server error". Otherwise "User not found" iff no user matches. For the first matching user: a throwing `bcrypt.compare` gives 500; a wrong password gives 401 "Invalid credentials"; a throwing `jwt.sign` gives 500; else their LoggedIn payload (token, email, id, name, role, discountInfo). A login succeeds only when nothing throws. |
| Login.FirstMatchLogsIn | src/app/api/login/route.js:22-68 | The first user matching by email or phone, with a password that checks and no call throwing, is logged in with that user's own payload. |
| Login.WrongPasswordIsInvalidCredentials | src/app/api/login/route.js:38-43 | A found user with a wrong password gets 401 "Invalid credentials". |
| Login.SummaryAgreesWithCalculator | src/app/api/login/route.js:52-55 | The summary's two flags say exactly when the price rule would list a signup or a loyalty line. |
| Cart.ProjectAll | src/app/pending-reservations/page.jsx:96-108 | Same length and order as the input, each entry projected. |
| Cart.ProjectKeepsSevenFields | src/app/pending-reservations/page.jsx:96-108 | The seven written fields are kept, the others dropped, and projecting twice equals projecting once. |
| JsText.ParseIntRoundTrip | src/app/api/services/seller/route.js:21 | `parseInt` reads the decimal text of every whole number back as that number. |
| JsText.ParseIntSkipsSpace | src/app/api/services/seller/route.js:21 | Leading white space does not change what `parseInt` reads. |
| JsText.ParseIntHex | src/app/api/services/seller/route.js:21 | Without a radix, "0x1A" is read in hexadecimal as 26. |
| JsText.ParseIntDecimalExamples | src/app/api/services/seller/route.js:21 | " 12" and "12abc" both read as 12. |
| JsText.ParseIntSignAndNaN | src/app/api/services/seller/route.js:21 | "-7" reads as -7, and "abc" reads as NaN. |
| Checkout.ValidateCard | src/app/checkout/page.jsx:57-75 | OK iff card length is 16, CVV length is 3, and name and expiry are non-empty. Otherwise the first failing check's message, in that order. |
| Checkout.ToItems | src/app/checkout/page.jsx:114-121 | One posted item per cart entry, in order. |
| Checkout.ItemFallbacks | src/app/checkout/page.jsx:114-121 | price is totalPrice‖price. endTime falls back to startDate, quantity to 1, and the option id to null. |
| Checkout.PostedItemsMatchTotal | src/app/checkout/page.jsx:38-41 | The posted item prices add up to the cart total. |
| Checkout.RequestTotalIsCartTotal | src/app/checkout/page.jsx:106-121 | The posted totalPrice is the displayed total and the sum of the item prices, with no discount applied. |
| Checkout.CheckoutPage.constructor | src/app/checkout/page.jsx:21-47 | Loads the stored cart, or an empty one, and its total. |
| Checkout.CheckoutPage.HandleSubmit | src/app/checkout/page.jsx:77-142 | An invalid card sets its message and sends nothing. A valid one posts the request. The cart leaves storage only after an OK response; a failure sets the payment error. The total invariant is kept. |
| PendingReservations.EditChangesOnlyDates | src/app/pending-reservations/page.jsx:90-94 | Only startDate/endDate of entries with the edited serviceId change. Every other entry and field is unchanged. |
| PendingReservations.EditIdempotent | src/app/pending-reservations/page.jsx:90-94 | Editing twice with the same dates equals editing once. |
| PendingReservations.DeleteRemovesExactlyMatches | src/app/pending-reservations/page.jsx:125-127 | An entry survives iff its serviceId differs from the target's. Every copy of a surviving entry is kept and none of a removed one. The survivors keep their order. |
| PendingReservations.CheckoutTotalAfterProjection | src/app/pending-reservations/page.jsx:96-113 | After the projection drops totalPrice, the checkout total equals this page's plain price sum. |
| PendingReservations.ConfirmItems | src/app/pending-reservations/page.jsx:173-178 | One confirm item per stored entry, in order. Each carries the entry's serviceId, its plain `price` (no totalPrice fall-back), startTime from startDate and endTime from endDate. |
| PendingReservations.ConfirmTotalMatchesItems | src/app/pending-reservations/page.jsx:158-178 | The posted totalPrice is the sum of the posted item prices. |
| PendingReservations.PendingPage.constructor | src/app/pending-reservations/page.jsx:18-28 | Loads the stored cart, or an empty one. Both edit dates start empty. |
| PendingReservations.PendingPage.HandleConfirmEditReservation | src/app/pending-reservations/page.jsx:82-117 | Either date empty: only the error is set. Otherwise matching entries get the dates, the projection is stored and the form closes. The confirmation status is never touched. |
| PendingReservations.PendingPage.HandleDelete | src/app/pending-reservations/page.jsx:119-150 | Nothing changes unless confirmed. If confirmed, the filtered list is kept and its projection stored. The edit dates and the confirmation status are never touched. |
| PendingReservations.PendingPage.HandleConfirmReservations | src/app/pending-reservations/page.jsx:152-194 | Posts the stored cart with its plain price sum. The cart is cleared only after an OK response. With no stored cart nothing is sent. The edit form, its dates and the error are never touched. |
| Search.ValidateNumber | src/app/api/search/route.js:6-7 | "" or a non-numeric string gives the default, and a numeral gives its value. An absent parameter also gives the default (corrected; see Findings). |
| Search.ValidateNumberAgreesWhenGiven | src/app/api/search/route.js:6-7 | On every present parameter the corrected reading equals the code as written. |
| Search.AbsentParamGivesNaN | src/app/api/search/route.js:6-7 | As written, an absent parameter reads as NaN; corrected, as the default. |
| Search.ValidateNumberReadsWholeNumbers | src/app/api/search/route.js:6-7 | A whole number written in decimal reads back as itself. |
| Search.NoParamsDefaults | src/app/api/search/route.js:16-20 | A request without parameters filters on the price range [0, 1000] alone. |
| Search.BuildFilters | src/app/api/search/route.js:25-59 | The pushed conditions are exactly ConditionsOf and never empty, so filters.AND is always set. |
| Search.ConditionsShape | src/app/api/search/route.js:28-54 | Text present iff query non-empty. Location present iff location non-empty. Rating present iff rating > 0. Price always present. 1 to 4 entries, in text, location, price, rating order. |
| Search.FilterMeaning | src/app/api/search/route.js:28-54 | A service is selected iff the query (if any) is in its type, name or description ignoring case, the location (if any) matches, its price is within the bounds, and its rating is ≥ a positive minimum. |
| Services.IncludeTable | src/app/api/services/route.js:6-25 | Each of the nine types includes exactly its own relation. |
| Services.UnknownIncludesNothing | src/app/api/services/route.js:26-27 | Any other type includes no relation. |
| Services.RelationSuffixes | src/app/api/services/route.js:9-25 | Eight relation names end in "Services". "RestaurantService" does not. |
| Services.FindRelationKey | src/app/api/services/route.js:65-67 | Returns a key ending in "Services" that no earlier key precedes with that suffix, so the first such key. Returns none when no key ends in "Services". |
| Services.FlattenFields | src/app/api/services/route.js:64-73 | The found relation is removed. specificService holds its value, or null when falsy. Every other field is unchanged. |
| Services.FlattenWithoutRelation | src/app/api/services/route.js:64-73 | A row without such a key, such as a restaurant row, keeps every field in place and gains specificService: null. |
| Services.GetServices | src/app/api/services/route.js:31-99 | 400 iff serviceType is missing. Otherwise 500 iff the store throws, and else a listing of every fetched row flattened, in order. |
| Services.ChildRows | src/app/api/services/route.js:129-237 | One type-specific row per submitted entry, each tied to the new service id. |
| Services.ServiceStore.Post | src/app/api/services/route.js:101-253 | A missing sellerId, type or name gives 400 before any write. The base row is created unapproved and unrejected. With rows, an unknown type gives 400 after the base row exists. Empty rows give 201 with no child rows. Write failures give 500. |
| Services.NewServicesAwaitApproval | src/app/api/services/route.js:115-126 | Every created service starts with isApproved and isRejected false. |
| ServiceApproval.PartitionMeaning | src/app/api/services/seller/route.js:24-26 | pending holds exactly the unapproved services and approved exactly the approved ones. They are disjoint, complete as multisets, and each in fetched order. |
| ServiceApproval.RejectedIsPending | src/app/api/services/seller/route.js:25 | A rejected, unapproved service is listed as pending. |
| ServiceApproval.SellerServices | src/app/api/services/seller/route.js:4-48 | 400 iff sellerId is missing. An id that `parseInt` (no radix) reads as NaN gives 500. With a readable id and a working store the result is the listing split from that seller's services. A store error gives 500. |
| ServiceApproval.SellerListingIsTheirs | src/app/api/services/seller/route.js:18-36 | For an id that `parseInt` reads as n, the route returns the split of seller n's services, and a service is listed iff it belongs to n. |
| ServiceApproval.AdminServices | src/app/api/services/admin/route.js:4-33 | All services are split with no filter. A store error gives 500. |
| Chat.Responses | src/app/api/chat/route.js:11-30 | Every category has a non-empty reply list (3, 2, 2, 3 replies). |
| Chat.MatchesAny | src/app/api/chat/route.js:35-39 | The alternation matches iff some alternative occurs in the text. |
| Chat.Classify | src/app/api/chat/route.js:32-44 | Greeting iff a greeting word occurs. Help iff no greeting word and a help word occurs. Booking likewise after those two. Otherwise the default. Matching is on the lower-cased message. |
| Chat.RandomIndex | src/app/api/chat/route.js:46-49 | floor(rand·len) is in [0, len) for rand in [0, 1). |
| Chat.EveryIndexReachable | src/app/api/chat/route.js:46-49 | Every index is drawn by some rand in [0, 1). |
| Chat.FallbackResponse | src/app/api/chat/route.js:32-49 | The reply comes from the list of the message's category. |
| Chat.SubstringGreeting | src/app/api/chat/route.js:33-35 | "this" is a greeting, because it contains "hi". |
| Chat.GreetingFirst | src/app/api/chat/route.js:35-36 | A greeting word wins over booking words in the same message. |
| Chat.BotReply | src/app/api/chat/route.js:64-82 | The completion's text when the call returns. The keyword fallback only when it throws. |
| Chat.ChatLog.Post | src/app/api/chat/route.js:51-104 | The user's message is stored before the reply. A failing write gives 500 and keeps the writes already made. |
| Chat.ChatLog.Get | src/app/api/chat/route.js:107-136 | 400 iff userId is missing. With an id, 500 iff the store fails. Otherwise exactly that user's messages, every copy of each, in stored order. |
| Chat.HistoryAfterPost | src/app/api/chat/route.js:56-91 | After a successful post, the user's history ends with their message followed by the reply. |
| AdminChatMonitoring.SomeMessageContains | src/components/AdminChatMonitoring.jsx:47-49 | `some` holds iff some lower-cased message contains the query. |
| AdminChatMonitoring.FilterMeaning | src/components/AdminChatMonitoring.jsx:36-50 | A conversation is listed iff the lower-cased query is in its lower-cased name, email or one of its messages. Every copy of a listed conversation is kept. The listing keeps order. |
| AdminChatMonitoring.EmptyQueryKeepsAll | src/components/AdminChatMonitoring.jsx:36-44 | An empty query lists every conversation. |
| AdminChatMonitoring.MissingUserSearchesMessages | src/components/AdminChatMonitoring.jsx:37-49 | A missing name or email is searched as "". Without a user, a non-empty query matches only through messages. |

## Left out

- Number semantics: money is `real`, so IEEE-754 rounding and the order of floating-point subtractions are not modelled.
- `JsText.NumberOf` reads optionally signed decimal numerals only. Surrounding white space, exponents, hex, `Infinity`, and the gap between `isNaN` (whole string) and `parseFloat` (prefix) are not modelled.
- Lower-casing covers ASCII letters only. Prisma's `mode: "insensitive"` and the regex `i` flag are taken as that same folding.
- Concurrency: the read-then-write races in both loyalty managers and between checkouts are not modelled. Operations run one at a time.
- The Prisma client, bcrypt, jsonwebtoken, the completion API, `fetch`, `localStorage`, React state and routing are replaced by the parameters and fields listed at the top. Redirects, loading flags and rendering are left out.
- `new Date(...).toISOString()` is left out: dates are carried as the strings the cart holds, and invalid dates are not modelled. The same goes for `parseInt` of posted service and user ids.
- Services POST: the per-type column conversions of the child rows (`parseInt`, `parseFloat`, `?? null`) are left out. Each row is kept as submitted. A request without `service` or `specificServices` (a TypeError, then 500) is not modelled.
- Services GET: the preliminary `count` call is folded into the single store-failure flag.
- ServiceApproval.SellerServices: `parseInt` results are unbounded integers. The loss of precision above 2^53 and the distinction of -0 are not modelled.
- ServiceApproval.SellerServices: an id that `parseInt` reads as NaN is taken to be refused by the store, giving 500. That behaviour is Prisma's, which is not part of this model.
- Search: the database query and its `createdAt` ordering are not modelled. `Selected` states what `filters.AND` means for one row.
- PendingReservations: the effect that merges fetched service details into each entry is left out.
- Cart: entries are assumed to carry `price`. The reserve page writes entries with only `totalPrice`, and that page is not part of this model.
- Chat: the message is a string. An absent message, whose `toLowerCase` throws in the fallback, is not modelled. So is a completion whose content is null.
- Login.LoginRequest: the store's `findFirst` order is the order of `users`, and the token's claims and expiry are not modelled.
- Checkout.CheckoutPage.HandleSubmit: the simulated two-second payment delay is left out.
- Checkout.CheckoutPage.HandleSubmit: `processing` is stated only as false after the call, not as its true value during the request.
- LoyaltyManager.LoyaltyStore.CheckAndUpdateLoyaltyStatus: the completed-reservation count is an argument. The `count` call itself is left out, and its failure is the `CountFails` fault.

## Findings

| source | as written | input that shows it | evidently intended | confidence | as-written member | corrected member |
|---|---|---|---|---|---|---|
| src/app/api/search/route.js:6-7,18-20 | `validateNumber` tests `value === "" \|\| isNaN(value)`. For an absent parameter `get` returns null, and `isNaN(null)` is false, so `parseFloat(null)` gives NaN. | `GET /api/search?query=spa` (no minPrice/maxPrice/rating): price bounds NaN instead of 0 and 1000 | an absent parameter takes its default, as the three defaults on lines 18-20 are written for | not executed | Search.ValidateNumberAsWritten, Search.AbsentParamGivesNaN | Search.ValidateNumber |
