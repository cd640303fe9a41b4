# invoiceGen: the token and payment core in Dafny

invoiceGen is a storefront that sells "tokens", which users spend to issue
invoices. Payment goes through the CardServ card gateway. This project
models the logic underneath the pages and proves what that logic
guarantees:

- **Token bookkeeping.** One store holds orders, users with a
  `tokenBalance`, and an append-only ledger. Three routes change it:
  - the sale route saves an order and credits tokens at once when the
    gateway returns a 3-D Secure redirect;
  - the check-orders sweep moves every `PROCESSING` order to the
    gateway's state and credits tokens on `APPROVED`;
  - the ledger route posts a top-up or an adjustment.

  Each route is a transition function on a `StoreState` value (module
  `Bookkeeping`). The class `TokenStore.Store` holds the same state in
  fields; its methods are proved to perform exactly those transitions,
  and the sweep keeps its loop. The model proves three invariants across
  all three routes:
  - the store stays well formed;
  - every balance equals its opening value plus the deltas appended for
    that user;
  - every user's latest ledger entry records the balance the user has.
- **The gateway request and reply** (`CardServ`): how the sale request is
  built from the checkout payload and the configuration, and how a reply
  is normalised, including a reply that is not JSON.
- **The webhook** (`Webhook`): the `??` chain that picks the order id, and
  the 400/404/200 decision.
- **Currency and token arithmetic** (`Currencies`): conversion through
  pounds, and 100 tokens per pound rounded with `Math.round`. The plan
  table (`Plans`) is proved to agree with it.
- **Draft invoices** (`Drafts`): the currency whitelist, the invoice
  numbering (`INV-<year>-<6 digits>`, starting at 245), and the defaults
  of a new draft.
- **Checkout** (`Checkout`):
  - the card-number, expiry and CVV input formatters, and the patterns
    they are validated against;
  - the submit handler, with its redirect chain and its bounded status
    polling.
- **Token calculator** (`Calculator`): thousands grouping, the £5–£500
  range, and the two inputs that update each other.
- **Pricing cards** (`Pricing`): the token line under each plan, and the
  custom card's price, which follows the currency.
- **Policy pages** (`Policy`): the classifier that turns a section body
  into paragraphs, bullet lists and numbered lists.
- **Help-centre FAQ** (`Faq`): the price line, the category and search
  filter, and the open/vote/contact state.

`Common` and `Js` model the JavaScript string operations and value
semantics the code relies on:
- truthiness, `||`, `??` and `?.`;
- `split`, `trim`, `parseInt` and `toString`;
- `replace(/\D/g, "")` and the thousands-grouping regex.

Amounts are exact reals, and `Math.round(x)` is `Floor(x + 0.5)`. The
network, the database client, the session, the environment, the clock and
`parseFloat` are all parameters.

**One purchase, two top-ups.** The sale route credits the buyer when the
gateway returns a redirect, but it stores the order with the gateway's own
state, usually `PROCESSING`. When a later sweep finds that order
`APPROVED`, it credits the same tokens again. `Bookkeeping.DoubleCredit`
exhibits this trace. The model states the invariants the code actually
keeps; it does not assume crediting is idempotent across the two paths.
`Bookkeeping.SweepLedger` states exactly which entries one sweep appends,
and `Bookkeeping.SweepNoRecredit` shows that the sweep alone never credits
an order twice.

**Behaviour of the code worth knowing:**
- A status reply that is not JSON gives the order the status `UNKNOWN`
  (`data.orderState || "UNKNOWN"`).
- A status reply whose body is the JSON text `null` makes the loop body
  throw when it reads `data.orderState`; that order is skipped and not
  counted (`Bookkeeping.NullReplySkipped`).
- The checkout page sends at most six status requests.
- Crediting happens on both the sale path and the sweep path (see above).
- The sale route saves the order whatever the gateway's HTTP status. It
  never reads `ok` (`Bookkeeping.SaleIgnoresHttpOutcome`).
- A draft's unknown currency code becomes `GBP`.
- The status URL keeps `/api` only on the fallback host: a configured base
  URL is followed directly by `/payments/status/`, while the sale URL
  always adds `/api` (`Bookkeeping.ConfiguredStatusUrl`).
- The FAQ filter trims the query only to test whether it is blank. The
  search itself uses the untrimmed query.

## Model

| member | source | states |
|---|---|---|
| Currencies.RatesPositive | src/lib/currency.ts:5-10 | every exchange rate is positive, and only the GBP rate is exactly 1 |
| Currencies.GBPIsIdentity | src/lib/currency.ts:20-34 | both conversions leave a GBP amount unchanged |
| Currencies.ConversionRoundTrip | src/lib/currency.ts:20-34 | converting into a currency and back to pounds returns the amount, and the reverse does too, for every currency and amount |
| Currencies.ToGBP | src/lib/currency.ts:20-23 | the pound amount, multiplied back by the rate, is the amount given |
| Currencies.FromGBP | src/lib/currency.ts:31-34 | converting the result back to pounds gives the amount given |
| Currencies.CalculateTokens | src/lib/currency.ts:43-47 | the token count is within half a token of 100 per pound of the amount's value |
| Currencies.AmountForTokens | src/lib/currency.ts:55-58 | the amount quoted is worth exactly the tokens asked for, at 100 per pound |
| Currencies.MinimumAmount | src/lib/currency.ts:65-67 | the minimum is positive and buys exactly one token, in every currency |
| Currencies.Round | src/lib/currency.ts:46 | `Math.round` gives the integer within half of its argument, rounding ties up |
| Currencies.RoundMonotone | src/lib/currency.ts:46 | rounding never reverses the order of two numbers |
| Currencies.TokensOfGBP | src/lib/currency.ts:43-47 | the tokens for a pound amount are that amount times 100, rounded; £1 gives 100 tokens |
| Currencies.TokensMonotone | src/lib/currency.ts:43-47 | a larger amount in the same currency never gives fewer tokens |
| Currencies.TokensForAmountRoundTrip | src/lib/currency.ts:43-58 | the tokens bought by the amount quoted for `t` tokens are exactly `t`, in every currency |
| Currencies.MinimumAmountUniform | src/lib/currency.ts:65-67 | the minimum amount is 0.01 in every currency |
| Plans.PlanTokensMatchPrice | src/lib/plans.ts:1-49 | every plan's tokens are 100 per pound of its GBP price, which is what `calculateTokens` gives for that price |
| Plans.PlanPricesMatchRates | src/lib/plans.ts:1-49 | every EUR and USD price is the GBP price converted at 1.15 and 1.33 |
| Plans.OnlyProIsPopular | src/lib/plans.ts:1-49 | a plan is marked popular exactly when it is Pro, so exactly one plan is |
| Plans.PlansDistinctAndOrdered | src/lib/plans.ts:1-49 | plan ids are pairwise distinct, and the GBP prices strictly increase down the list |
| Plans.HeadlineStarter | src/lib/plans.ts:12 | the Beginner plan's first bullet is the headline built from its 1000 tokens |
| Plans.HeadlinePro | src/lib/plans.ts:27 | the Pro plan's first bullet is the headline built from its 5000 tokens |
| Plans.HeadlineBusiness | src/lib/plans.ts:43 | the Business plan's first bullet is the headline built from its 10000 tokens |
| Plans.PlanHeadlines | src/lib/plans.ts:1-49 | every plan's first bullet advertises its tokens and a tenth as many invoices, grouped with commas |
| Js.OrChain | src/app/checkout/page.tsx:87-90 | a chain of JavaScript "or" over `a`, `b`, `c` is truthy exactly when one of them is, and yields the first truthy one, else `c` |
| Js.CoalesceChain | src/app/api/cardserv/webhook/route.ts:10 | `a ?? b ?? c` yields the first value that is neither `undefined` nor `null`, else `c` |
| CardServ.EnvText | src/lib/cardserv.ts:11 | a set variable is interpolated as itself, and an unset one as "undefined" |
| CardServ.StripTrailingSlashes | src/lib/cardserv.ts:10 | the result is a prefix of the input that does not end in '/', and everything removed is '/' |
| CardServ.StripTrailingSlashesIdempotent | src/lib/cardserv.ts:10 | stripping twice is stripping once, and extra trailing slashes make no difference |
| CardServ.BaseUrl | src/lib/cardserv.ts:10 | the base URL is never empty and never ends in '/' |
| CardServ.SaleUrl | src/lib/cardserv.ts:11 | the sale URL starts with the base URL and one '/', never two |
| CardServ.BaseUrlShape | src/lib/cardserv.ts:10 | the base URL never ends in '/'; it is the configured URL without its trailing slashes, or the test host when that is unset or all slashes |
| CardServ.SaleUrlShape | src/lib/cardserv.ts:11 | the sale URL is the base, then "/api/payments/sale/", then the requestor id, with no double slash at the join |
| CardServ.CurrencyCodeDefault | src/lib/cardserv.ts:23 | the order currency is the configured code, or "EUR" when that is unset or empty |
| CardServ.ConfigFieldsIgnorePayload | src/lib/cardserv.ts:18-24 | two payloads give the same merchant id, currency code and URL: those come from the configuration only |
| CardServ.Fixed2 | src/lib/cardserv.ts:22 | the text has two digits after its point, and starts with '-' exactly for a negative number |
| CardServ.Fixed2OfCents | src/lib/cardserv.ts:22 | `toFixed(2)` of a whole number of cents has its point third from the end, and its digits without the point read back as the cents |
| CardServ.AmountText | src/lib/cardserv.ts:22 | a missing amount gives "1.00"; a number is formatted; any other value throws |
| CardServ.SplitPart | src/lib/cardserv.ts:26 | `v?.split(sep)[i]` is the i-th piece when it exists; a missing `v` gives `undefined`, and a `v` that is not a string throws |
| CardServ.TextOr | src/lib/cardserv.ts:26-40 | a piece or its fallback: a non-empty piece is kept, and an empty or missing one gives the fallback |
| CardServ.NameParts | src/lib/cardserv.ts:26-27 | first and last name are never empty; building throws exactly when the name is neither missing nor a string |
| CardServ.NameWords | src/lib/cardserv.ts:26-27 | for two or more words, the first name is the first word and the last name the second; the rest is dropped |
| CardServ.NameDefaults | src/lib/cardserv.ts:26-27 | one word gives that word and "Doe"; an empty or missing name gives "John" and "Doe" |
| CardServ.ExpiryParts | src/lib/cardserv.ts:39-40 | the month is never empty and the year always starts with "20"; a value that is not a string throws |
| CardServ.ExpirySplit | src/lib/cardserv.ts:39-40 | "MM/YY" gives month "MM" and year "20YY"; a missing expiry gives "10" and "2026" |
| CardServ.BuildSale | src/lib/cardserv.ts:18-47 | building fails exactly on the payload shapes that throw; otherwise the URL, the authorization, the merchant id, the currency, the names and the expiry are the ones described above |
| CardServ.IndexFields | src/lib/cardserv.ts:62 | spreading an array or a string gives each element under its index written in decimal, and no other key |
| CardServ.Normalize | src/lib/cardserv.ts:61-66 | the returned object has `ok` and `statusCode` from the HTTP reply and a truthy `orderState`; every other property the spread copies passes through unchanged, and nothing else is added |
| CardServ.NormalizeStringBody | src/lib/cardserv.ts:53-66 | a reply whose body is the JSON string "ok" comes back with its two characters under "0" and "1", and the state "PROCESSING" |
| CardServ.NotJsonReply | src/lib/cardserv.ts:51-58 | a reply that is not JSON is reported as "PROCESSING", with its raw text kept |
| CardServ.OrderStateChoice | src/lib/cardserv.ts:64 | the reported state is the gateway's when that is truthy, and "PROCESSING" otherwise |
| CardServ.CreateCardServOrder | src/lib/cardserv.ts:1-67 | the call throws exactly when building the request throws; otherwise it returns the normalised reply |
| Bookkeeping.FindUser | src/app/api/cardserv/sale/route.ts:36-38 | the lookup by email or by id returns the position of the first user with that key, or reports that none has it |
| Bookkeeping.Credit | src/app/api/cardserv/sale/route.ts:40-60 | the credit adds the delta to one user's balance and appends exactly one entry: that user's id, the kind, the delta, the new balance as `balanceAfter`, the currency, amount and receipt given; nothing else changes |
| Bookkeeping.NewOrder | src/app/api/cardserv/sale/route.ts:16-28 | the new order keeps the buyer's email, amount, currency and description, gets the next id, a status that is never empty, and a gateway id that is never `undefined` |
| Bookkeeping.StoredTokens | src/app/api/cardserv/sale/route.ts:22 | a token count is stored exactly when it is present and not zero, so 0 is stored as `null` |
| Bookkeeping.SaleStep | src/app/api/cardserv/sale/route.ts:8-94 | a thrown gateway call changes nothing and answers 500; otherwise exactly one order is appended, and the route answers with the redirect exactly when the reply has a truthy `redirectUrl` |
| Bookkeeping.NewOrderFields | src/app/api/cardserv/sale/route.ts:16-28 | a zero or missing token count is stored as none, a missing gateway id as `null`, and the status is the gateway's state or "PROCESSING", never empty |
| Bookkeeping.SaleCredits | src/app/api/cardserv/sale/route.ts:33-60 | with a redirect and a known buyer: +`tokens ?? 0` for that user only, one "Top-up" entry in the user's currency with `Math.round(amount * 100)`, a 302, and the order's status still the gateway's |
| Bookkeeping.SaleWithoutCredit | src/app/api/cardserv/sale/route.ts:63-86 | without a redirect, or for an unknown buyer, only the new order is added; the answer is the 302, or a 202 carrying the order id and both references |
| Bookkeeping.SaleReadsFields | src/app/api/cardserv/sale/route.ts:16-86 | the route depends on the gateway's reply only through `redirectUrl`, `orderSystemId`, `orderMerchantId`, `orderState` and `raw` |
| Bookkeeping.SaleIgnoresHttpOutcome | src/app/api/cardserv/sale/route.ts:13-28 | the same reply body with another HTTP status or `ok` flag gives the same store and the same answer |
| Bookkeeping.CreditUsers | src/app/api/cardserv/sale/route.ts:40-60 | after a credit, every user keeps their id and email; the balance moves by the delta only for the credited user, whose latest entry is the new one |
| Bookkeeping.CreditAccounted | src/app/api/cardserv/sale/route.ts:40-60 | a credit keeps every balance equal to its opening value plus the deltas appended since |
| Bookkeeping.CreditKeeps | src/app/api/cardserv/sale/route.ts:40-60 | a credit keeps the store well formed and accounted, and every latest entry equal to the balance |
| Bookkeeping.SaleKeeps | src/app/api/cardserv/sale/route.ts:16-60 | the sale route keeps the store well formed and accounted, and every latest entry equal to the balance |
| Bookkeeping.StatusUrl | src/app/api/cardserv/check-orders/route.ts:12-13 | a configured base URL (non-empty once its trailing slashes are removed) is followed by "/payments/status/<requestor id>"; otherwise the fallback host gets "/api/payments/status/<requestor id>" |
| Bookkeeping.ConfiguredStatusUrl | src/app/api/cardserv/check-orders/route.ts:12-13 | setting the base URL to the fallback host itself drops `/api` from the status URL, while the sale URL stays the same |
| Bookkeeping.PendingFrom | src/app/api/cardserv/check-orders/route.ts:16-18 | the orders selected are exactly those whose status is "PROCESSING", each once, in order |
| Bookkeeping.NewStatus | src/app/api/cardserv/check-orders/route.ts:49 | the new status is always truthy: the gateway's state, or "UNKNOWN" |
| Bookkeeping.CheckOne | src/app/api/cardserv/check-orders/route.ts:27-91 | a thrown status call, or a body that is the JSON text `null`, changes nothing and is not counted; any other answer rewrites this order's status and response, leaves every other order alone, and is counted; when the new status is `APPROVED` and the order's email belongs to a user, that user's balance goes up by the order's tokens (0 when absent) and one "Top-up" entry with that delta, the new balance, the order's currency and amount and no receipt is appended; otherwise users and ledger are unchanged |
| Bookkeeping.SweepOver | src/app/api/cardserv/check-orders/route.ts:26-92 | the loop keeps the numbers of orders and users, and counts at most one update per order visited |
| Bookkeeping.SweepOverStep | src/app/api/cardserv/check-orders/route.ts:26-92 | the loop over `p + [x]` is the loop over `p` followed by one turn on `x` |
| Bookkeeping.Sweep | src/app/api/cardserv/check-orders/route.ts:12-103 | with no `PROCESSING` order nothing changes and a message is returned; otherwise the report gives the number of orders checked and the number the loop updated |
| Bookkeeping.SweepOverOrders | src/app/api/cardserv/check-orders/route.ts:26-91 | the loop rewrites exactly the orders it visits whose reply it can read, each from its own reply, and leaves every other order as it was |
| Bookkeeping.CheckOneKeeps | src/app/api/cardserv/check-orders/route.ts:49-87 | checking one order keeps the store well formed and accounted, and every latest entry equal to the balance |
| Bookkeeping.SweepOverKeeps | src/app/api/cardserv/check-orders/route.ts:26-92 | every prefix of the loop keeps the three invariants |
| Bookkeeping.SweepOrders | src/app/api/cardserv/check-orders/route.ts:16-58 | an order that is not `PROCESSING` is never touched; a `PROCESSING` order with a readable reply takes that reply's state (or "UNKNOWN") and keeps the reply; one whose call threw, or whose body is `null`, is left as it was |
| Bookkeeping.SweepKeeps | src/app/api/cardserv/check-orders/route.ts:63-87 | the sweep keeps the store well formed and the ledger append-only; every balance moves by its appended deltas only, and latest entries match balances |
| Bookkeeping.SweepNoRecredit | src/app/api/cardserv/check-orders/route.ts:16-58 | an order credited by one sweep has left `PROCESSING`; the next sweep, whatever the gateway says, neither examines it nor counts it among the orders it appends entries for |
| Bookkeeping.SweepLedger | src/app/api/cardserv/check-orders/route.ts:16-87 | the entries a sweep appends are, one for one and in the sweep's order, the orders of `CreditedBy` (pending, readable, `APPROVED`, known buyer); each is a "Top-up" to the buyer of the order's tokens, currency and amount; older entries are kept |
| Bookkeeping.SweepOverLedger | src/app/api/cardserv/check-orders/route.ts:26-91 | the loop over any increasing list of order ids appends one entry per credited id in loop order and changes no user's id or email |
| Bookkeeping.CheckOneLedger | src/app/api/cardserv/check-orders/route.ts:49-87 | one turn appends the entry for its order exactly when the order is credited, whatever earlier turns did to balances |
| Bookkeeping.CreditedIds | src/app/api/cardserv/check-orders/route.ts:26-87 | the credited ids among the examined ones: each credited id is listed, only those are, and in the examined order |
| Bookkeeping.FindUserSameKeys | src/app/api/cardserv/check-orders/route.ts:64-66 | the lookup of the buyer by email gives the same user whatever the balances are |
| Bookkeeping.SweepReport | src/app/api/cardserv/check-orders/route.ts:94-97 | `checked` is the number of `PROCESSING` orders, and `updated` is the number of them whose reply could be read |
| Bookkeeping.CountReadable | src/app/api/cardserv/check-orders/route.ts:44-56 | the number of orders with a readable reply is at most the number of orders |
| Bookkeeping.SweepOverCount | src/app/api/cardserv/check-orders/route.ts:26-91 | the loop counts exactly the orders whose reply it could read |
| Bookkeeping.NullReplySkipped | src/app/api/cardserv/check-orders/route.ts:42-89 | a `null` status body leaves the order `PROCESSING` and the store unchanged, and the report says one checked, none updated |
| Bookkeeping.ApprovedSweepCredits | src/app/api/cardserv/check-orders/route.ts:63-87 | worked example: a lone `PROCESSING` order reported `APPROVED` raises its buyer's balance by its tokens and appends exactly the entry (buyer's id, "Top-up", the tokens, the new balance, the order's currency and amount, no receipt) |
| Bookkeeping.RedirectedSaleCredits | src/app/api/cardserv/sale/route.ts:25-60 | a concrete sale: the buyer gets 1000 tokens at once, and the order stays `PROCESSING` |
| Bookkeeping.DoubleCredit | src/app/api/cardserv/check-orders/route.ts:63-87 | after that sale, a sweep told `APPROVED` credits the same 1000 tokens again: balance 2000, two ledger entries |
| Bookkeeping.LedgerPost | src/app/api/ledger/route.ts:18-48 | no session gives a 401, and a Top-up without a usable amount a 400, both with no change; the post succeeds exactly when there is a session, the amount is acceptable and the user exists; every failure leaves the store unchanged |
| Bookkeeping.LedgerPostEntry | src/app/api/ledger/route.ts:33-47 | the delta is `amount * 100` for a top-up and `delta` otherwise; `balanceAfter` and the returned balance are the written balance; the amount is recorded only for top-ups; one entry is appended and no other user changes |
| Bookkeeping.LedgerPostKeeps | src/app/api/ledger/route.ts:33-46 | a post keeps the store well formed and accounted, and every latest entry equal to the balance |
| Bookkeeping.PostsAccounted | src/app/api/ledger/route.ts:34-46 | after any run of posts, each balance minus its opening value is the sum of the deltas appended for that user |
| Bookkeeping.AdjustCanGoNegative | src/app/api/ledger/route.ts:33-35 | no lower bound is enforced: an adjustment of -5 takes a zero balance to -5 |
| TokenStore.Store.CreditUser | src/app/api/cardserv/sale/route.ts:45-60 | the balance write and the entry append perform exactly `Credit` |
| TokenStore.Store.CreateSale | src/app/api/cardserv/sale/route.ts:8-94 | the new state and the answer are those of `SaleStep`, and the store stays well formed |
| TokenStore.Store.CheckOrder | src/app/api/cardserv/check-orders/route.ts:27-91 | the loop body performs exactly `CheckOne`, skipping a thrown call or a `null` body |
| TokenStore.Store.CheckEach | src/app/api/cardserv/check-orders/route.ts:26-92 | the `for` loop performs exactly `SweepOver`, counting the orders whose reply it could read |
| TokenStore.Store.CheckOrders | src/app/api/cardserv/check-orders/route.ts:4-103 | the handler performs exactly `Sweep`, and the store stays well formed |
| TokenStore.Store.PostLedger | src/app/api/ledger/route.ts:18-48 | the handler performs exactly `LedgerPost`, and the store stays well formed |
| Webhook.FindBySystemId | src/app/api/cardserv/webhook/route.ts:17 | the lookup returns the position of an order with that gateway id, or reports that none has it |
| Webhook.HandleWebhook | src/app/api/cardserv/webhook/route.ts:6-32 | a body that is not JSON gives 400; a non-string or blank id gives 400; an id no order has gives 404; otherwise 200; each exactly when its condition holds |
| Webhook.EmptyIdShadows | src/app/api/cardserv/webhook/route.ts:10-14 | an empty `order.orderSystemId` wins over later fields, and the request is refused |
| Webhook.NotifiedId | src/app/api/cardserv/webhook/route.ts:10 | the id is the nested `orderSystemId` unless that is `undefined` or `null`, then the top-level one, then `orderId` |
| Webhook.IdFallback | src/app/api/cardserv/webhook/route.ts:10 | a later field is used only when every earlier one is `undefined` or `null` |
| Webhook.BlankIdRefused | src/app/api/cardserv/webhook/route.ts:12-14 | a whitespace-only id gives 400 |
| Drafts.SafeCurrency | src/app/api/drafts/route.ts:15-20 | an allowed code is returned as is, and anything else becomes "GBP" |
| Drafts.DraftCurrency | src/app/api/drafts/route.ts:31 | a truthy body currency is the one checked against the whitelist, otherwise the session's; the result is always allowed |
| Drafts.PadStart | src/app/api/drafts/route.ts:73-76 | the padded text ends with the original, is at least the width long, and is padded with the fill character only |
| Drafts.LastSegment | src/app/api/drafts/route.ts:70 | the last piece after splitting at '-' holds no '-' |
| Drafts.LastSegmentOf | src/app/api/drafts/route.ts:70 | the last segment of `a-b` is `b` when `b` holds no '-' |
| Drafts.NextNum | src/app/api/drafts/route.ts:68-71 | the next number is at least 1, and 245 when there is no previous number |
| Drafts.InvoiceNumber | src/app/api/drafts/route.ts:73-76 | the number is "INV-", the year and '-', followed by the sequence zero-padded to at least six characters |
| Drafts.InvoiceNumberShape | src/app/api/drafts/route.ts:73-76 | the number ends with '-' and the decimal sequence, zero-padded to six digits and never cut short |
| Drafts.NextNumAfterDigits | src/app/api/drafts/route.ts:68-71 | a previous number ending in '-' and digits continues at their value plus one |
| Drafts.NextNumRoundTrip | src/app/api/drafts/route.ts:68-76 | reading back the number made for `n` gives `n + 1` |
| Drafts.NextNumWithoutPrevious | src/app/api/drafts/route.ts:68-71 | numbering starts at 245 |
| Drafts.NextNumAfterJunk | src/app/api/drafts/route.ts:68-71 | a last segment that is not a number restarts numbering at 245 |
| Drafts.NextNumAfterDash | src/app/api/drafts/route.ts:68-71 | a previous number ending in '-' reads as 0, so the next is 1 |
| Drafts.Items | src/app/api/drafts/route.ts:45-101 | items that are not an array give none; otherwise each item keeps its description, its quantity and tax are rounded, and its rate is written with two decimals |
| Drafts.LastNumberFor | src/app/api/drafts/route.ts:63-66 | the number found is that of the user's latest invoice (no later invoice is theirs), or the user has none |
| Drafts.NewDraft | src/app/api/drafts/route.ts:27-101 | the draft belongs to the user, has status "Draft", the next number in sequence, the currency `DraftCurrency` picks, the items `Items` makes, and the client or "New Client" |
| Drafts.ConsecutiveDrafts | src/app/api/drafts/route.ts:63-76 | two drafts in a row for one user in one year get consecutive numbers |
| Drafts.LastNumberAppended | src/app/api/drafts/route.ts:63-66 | the user's latest invoice is the one just appended |
| Drafts.DraftStore.Post | src/app/api/drafts/route.ts:22-107 | no session gives a 401 with nothing added; otherwise exactly the new draft is appended and returned |
| Common.Take | src/app/checkout/page.tsx:54 | `slice(0, n)` is the prefix of length `min(n, length)` |
| Common.DigitsOnly | src/app/checkout/page.tsx:53 | `replace(/\D/g, "")` leaves only digits, and no more characters than it was given |
| Common.ParseInt | src/app/api/drafts/route.ts:70 | `parseInt` is NaN exactly when no digit follows the leading whitespace and the optional sign |
| Common.ParseIntOfDigits | src/app/api/drafts/route.ts:70 | `parseInt` of a string of digits is their value |
| Common.JoinSplit | src/components/policy/PolicyContent.tsx:18 | joining the pieces of a split with the separator gives back the string |
| Common.GroupThousandsRemove | src/app/token-calculator/page.tsx:18 | removing the separators from a grouped number gives back its digits |
| Common.GroupThousandsShape | src/app/token-calculator/page.tsx:18 | the separator sits exactly every fourth place from the right, and never first |
| Checkout.GroupedDigits | src/app/checkout/page.tsx:55 | grouped digits have a space exactly at every fifth place, and the digits in order elsewhere |
| Checkout.UngroupDigits | src/app/checkout/page.tsx:51-56 | removing the spaces from grouped digits, or keeping only digits, gives the digits back |
| Checkout.GroupedTrimmed | src/app/checkout/page.tsx:56 | the final `trim()` changes nothing |
| Checkout.FormatCardNumber | src/app/checkout/page.tsx:51-56 | the formatted number has at most 19 characters, with a space exactly at every fifth place |
| Checkout.CardNumberDigits | src/app/checkout/page.tsx:51-56 | the formatted number holds the first 16 digits typed, in order, with a space exactly at every fifth place and nothing else |
| Checkout.CardNumberIdempotent | src/app/checkout/page.tsx:51-56 | formatting a formatted number changes nothing |
| Checkout.GroupsMatchPattern | src/app/checkout/page.tsx:34 | nineteen characters with spaces at every fifth place and digits elsewhere match the card pattern |
| Checkout.CardNumberValid | src/app/checkout/page.tsx:33-56 | the formatted number passes the validator exactly when at least 16 digits were typed |
| Checkout.FormatExpiry | src/app/checkout/page.tsx:58-62 | the result keeps at most four digits and has a '/' after the second exactly when there are three or more; it is at most 5 characters |
| Checkout.ExpiryDigits | src/app/checkout/page.tsx:58-62 | removing the '/' gives back the digits kept |
| Checkout.ExpiryMonth | src/app/checkout/page.tsx:37 | the expiry pattern accepts exactly `MM/YY` with MM from 01 to 12 |
| Checkout.ExpiryValid | src/app/checkout/page.tsx:36-62 | the formatted expiry passes exactly when four digits were typed and the first two are a month |
| Checkout.FilterCvv | src/app/checkout/page.tsx:333 | the CVV filter keeps at most three characters, all digits |
| Checkout.CvvValid | src/app/checkout/page.tsx:40 | the filtered CVV passes the pattern exactly when three or more digits were typed |
| Checkout.Submit | src/app/checkout/page.tsx:64-131 | the sale is sent exactly when the terms are accepted, at most six status requests follow, and only after an accepted sale with no immediate redirect |
| Checkout.PollLoop | src/app/checkout/page.tsx:102-126 | the loop ends with between its starting count and six requests, and ends before six only on a redirect or a throw |
| Checkout.HandleSubmit | src/app/checkout/page.tsx:64-147 | the handler with its polling loop produces exactly the outcome of `Submit` |
| Checkout.TermsGate | src/app/checkout/page.tsx:65-69 | nothing is sent, and the terms toast shows, exactly when the terms are not accepted |
| Checkout.ValidFormIsSent | src/app/checkout/page.tsx:32-75 | a form that passes validation is always sent |
| Checkout.ImmediateRedirectFirst | src/app/checkout/page.tsx:87-95 | the immediate redirect is the first truthy of its three places; when there is one, the page navigates there without polling |
| Checkout.PollLoopStops | src/app/checkout/page.tsx:102-126 | from attempt `a`, the loop sends at most `6 - a` requests and stops early only on a redirect or a thrown error |
| Checkout.PollLoopQuiet | src/app/checkout/page.tsx:102-126 | every status request before the last was answered without a redirect |
| Checkout.PollingBounded | src/app/checkout/page.tsx:102-126 | between one and six status requests are sent, and polling stops at the first reply with a redirect |
| Checkout.PolledRedirectIgnored | src/app/checkout/page.tsx:128-131 | as written, once polling has started the page never navigates, even to a redirect polling found |
| Checkout.PolledRedirectIgnoredExample | src/app/checkout/page.tsx:102-131 | a first poll that supplies a redirect still ends on the success screen |
| Checkout.IntendedFollowsPolledRedirect | src/app/checkout/page.tsx:102-131 | the corrected handler navigates to the redirect polling found, and shows success only when there is none |
| Calculator.FormatNumber | src/app/token-calculator/page.tsx:16-21 | removing the spaces from the formatted number gives its plain decimal, for every integer |
| Calculator.FormatNumberShape | src/app/token-calculator/page.tsx:16-21 | below 1000 the plain decimal; from 1000 on, the spaces group digits in threes from the right; removing the spaces gives the decimal |
| Calculator.BoundsInPounds | src/app/token-calculator/page.tsx:77-78 | the bounds are £5 and £500 expressed in the selected currency, with the lower one first |
| Calculator.Clamp | src/app/token-calculator/page.tsx:97 | the clamped amount lies within the bounds, and equals the input when that is within them |
| Calculator.AmountChanged | src/app/token-calculator/page.tsx:95-117 | an amount edit clamps the amount (NaN and 0 count as 0), writes `floor(amount * 100 / 10)` invoices, and raises the amount flag |
| Calculator.InvoicesChanged | src/app/token-calculator/page.tsx:119-133 | an invoices edit sets at least one invoice, and the amount to the clamped price of the invoices, rounded to cents |
| Calculator.CurrencyChanged | src/app/token-calculator/page.tsx:135-137 | a currency change keeps the amount and the invoice count as they were |
| Calculator.AmountSettled | src/app/token-calculator/page.tsx:106-108 | the timer clears the amount flag and nothing else |
| Calculator.InvoicesSettled | src/app/token-calculator/page.tsx:130-132 | the timer clears the invoices flag and nothing else |
| Calculator.Synced | src/app/token-calculator/page.tsx:86-93 | the effect changes only the invoice count, and only when no update is under way and `floor(tokens / 10)` is a different positive number |
| Calculator.InvPreserved | src/app/token-calculator/page.tsx:86-133 | the invoice count is never below one, from the start and after every handler |
| Calculator.NonNumericAmount | src/app/token-calculator/page.tsx:96-97 | non-numeric text and 0 both set the minimum amount |
| Calculator.EnoughForInvoices | src/app/token-calculator/page.tsx:81-82 | any amount in range buys at least 500 tokens |
| Calculator.AmountEditSettles | src/app/token-calculator/page.tsx:86-108 | once an amount edit settles, the shown invoice count becomes `floor(tokens / 10)` |
| Calculator.AmountEditIgnoresCurrency | src/app/token-calculator/page.tsx:103 | an amount edit ignores the currency: €11.50 writes 115 invoices although it buys 100 |
| Calculator.RoundCentsInRange | src/app/token-calculator/page.tsx:128 | rounding an in-range amount to cents keeps it in range, within half a cent |
| Calculator.InvoicesEditAmount | src/app/token-calculator/page.tsx:127-128 | the amount an invoices edit writes is in range, and within half a cent of the clamped price |
| Calculator.Calculator.constructor | src/app/token-calculator/page.tsx:59-63 | the page starts with GBP, 50, 5 invoices and no update under way |
| Calculator.Calculator.HandleAmountChange | src/app/token-calculator/page.tsx:95-104 | the state update is exactly `AmountChanged` |
| Calculator.Calculator.HandleInvoicesChange | src/app/token-calculator/page.tsx:119-128 | the state update is exactly `InvoicesChanged` |
| Calculator.Calculator.HandleCurrencyChange | src/app/token-calculator/page.tsx:135-137 | the state update is exactly `CurrencyChanged` |
| Calculator.Calculator.AmountTimer | src/app/token-calculator/page.tsx:106-108 | the state update is exactly `AmountSettled` |
| Calculator.Calculator.InvoicesTimer | src/app/token-calculator/page.tsx:130-132 | the state update is exactly `InvoicesSettled` |
| Calculator.Calculator.SyncInvoices | src/app/token-calculator/page.tsx:86-93 | the state update is exactly `Synced` |
| Pricing.InvoiceEstimate | src/components/sections/Pricing.tsx:163 | `Math.round(tokens / 10)` is within half an invoice of a tenth of the tokens |
| Pricing.TokensLine | src/components/sections/Pricing.tsx:157-167 | a plan named "free" in any case shows 0 and 0; a price that is not a number shows NaN; otherwise the tokens of the GBP price, and their invoice estimate |
| Pricing.TokensLineFacts | src/components/sections/Pricing.tsx:157-163 | the line is the same in every display currency; £n shows 100n tokens and 10n invoices; "Free" and "FREE" show none |
| Pricing.CustomTokens | src/components/sections/Pricing.tsx:174 | the custom token count is never negative, and never below `calculateTokens` |
| Pricing.PriceEdited | src/components/sections/Pricing.tsx:187-191 | NaN leaves the card unchanged; any number is kept, raised to 0.01 if lower |
| Pricing.CurrencySwitched | src/components/sections/Pricing.tsx:178-185 | the same currency changes nothing; another currency is recorded, and the price stays at least 0.01 |
| Pricing.CardValidKept | src/components/sections/Pricing.tsx:170-191 | the price starts at 0.01 and never drops below it |
| Pricing.SwitchKeepsValue | src/components/sections/Pricing.tsx:178-184 | unless the minimum applies, a switch keeps the value in pounds, and switching back restores the price exactly |
| Pricing.SwitchCanRaisePrice | src/components/sections/Pricing.tsx:178-184 | when the minimum applies, a round trip EUR→GBP→EUR turns 0.01 into 0.0115 |
| Pricing.CustomHomeCard.constructor | src/components/sections/Pricing.tsx:170-171 | the card starts at 0.01 in the current currency |
| Pricing.CustomHomeCard.OnChange | src/components/sections/Pricing.tsx:187-191 | the state update is exactly `PriceEdited`, and the price stays at least 0.01 |
| Pricing.CustomHomeCard.CurrencyEffect | src/components/sections/Pricing.tsx:178-185 | the state update is exactly `CurrencySwitched`, and the price stays at least 0.01 |
| Policy.TrimmedLines | src/components/policy/PolicyContent.tsx:19 | the lines kept are trimmed and non-empty, and there are no more of them than there were lines |
| Policy.TrimmedLinesKeep | src/components/policy/PolicyContent.tsx:19 | with no blank line, every line is kept, trimmed, in order; with only blank lines, none is |
| Policy.BulletNotNumbered | src/components/policy/PolicyContent.tsx:20-21 | a bullet line never reads as a numbered line |
| Policy.BulletItem | src/components/policy/PolicyContent.tsx:27 | the item is the line without its '•' and at most one following whitespace character |
| Policy.NumberedItem | src/components/policy/PolicyContent.tsx:37 | the item is the line without its digits, its '.' and at most one following whitespace character |
| Policy.BulletItems | src/components/policy/PolicyContent.tsx:26-28 | one item per line, each its line without the marker |
| Policy.NumberedItems | src/components/policy/PolicyContent.tsx:36-38 | one item per line, each its line without the number |
| Policy.Classify | src/components/policy/PolicyContent.tsx:19-43 | a bullet list exactly when there are two or more lines and all are bullets; a numbered list exactly when there are two or more and all are numbered; otherwise the untrimmed block as a paragraph |
| Policy.OneLineIsParagraph | src/components/policy/PolicyContent.tsx:20-43 | a block of at most one line is a paragraph, however it starts |
| Policy.Render | src/components/policy/PolicyContent.tsx:16-18 | a missing or empty body gives no blocks; otherwise one classified block per piece between blank lines |
| Policy.BlocksCoverBody | src/components/policy/PolicyContent.tsx:18 | the blocks, joined with "\n\n", give back the body |
| Policy.TwoBullets | src/components/policy/PolicyContent.tsx:20-28 | two bullet lines make a two-item bullet list |
| Policy.BulletsAroundBlank | src/components/policy/PolicyContent.tsx:18-28 | a whitespace-only line between two bullets is dropped, and they make a two-item list |
| Policy.BulletItemExample | src/components/policy/PolicyContent.tsx:27 | "• a" and "•a" give "a", while "•  a" keeps its second space |
| Faq.PricingAnswer | src/app/help/faq/page.tsx:22-31 | the pricing answer quotes the exchange rate, written with a decimal comma, and the currency's symbol as the price of 100 tokens |
| Faq.PriceLineMatchesRates | src/app/help/faq/page.tsx:22-31 | the quoted price of 100 tokens is the exchange rate written with a decimal comma, and buys exactly 100 tokens |
| Faq.SymbolsDistinct | src/app/help/faq/page.tsx:23-24 | the symbols are £, € and $, and each currency has its own amount text |
| Faq.Filter | src/app/help/faq/page.tsx:477 | an item is kept exactly when it is in the list and passes the test, and the list never grows |
| Faq.FilterKeepsOrder | src/app/help/faq/page.tsx:477 | filtering only removes items and keeps the order; when every item passes, nothing is removed |
| Faq.FilteredItems | src/app/help/faq/page.tsx:474-485 | an item is shown exactly when it is listed and matches the category and the query; the list never grows |
| Faq.FilteredItemsSpec | src/app/help/faq/page.tsx:474-485 | an item is shown exactly when it is in the chosen category and the query is blank or found, ignoring case, in its question or answer; the order is kept |
| Faq.BlankQueryShowsCategory | src/app/help/faq/page.tsx:479 | a query of spaces only filters by category alone |
| Faq.TopItems | src/app/help/faq/page.tsx:487-490 | an item is a top item exactly when it is listed and marked `top`; the list never grows |
| Faq.TopItemsSpec | src/app/help/faq/page.tsx:487-490 | the top items are exactly the items marked `top`, in order |
| Faq.Toggled | src/app/help/faq/page.tsx:492-502 | a toggle flips the membership of that one id and no other |
| Faq.ToggleTwice | src/app/help/faq/page.tsx:492-502 | toggling twice restores the set |
| Faq.ContactToggled | src/app/help/faq/page.tsx:528-530 | contacting the open id closes the form; any other id opens it for that id |
| Faq.FaqPage.HandleToggle | src/app/help/faq/page.tsx:492-502 | the open answers are toggled on that id; nothing else changes |
| Faq.FaqPage.HandleHelpful | src/app/help/faq/page.tsx:504-514 | the votes are toggled on that id; nothing else changes |
| Faq.FaqPage.HandleNotHelpful | src/app/help/faq/page.tsx:516-526 | the same toggle of the same vote set as "helpful" |
| Faq.FaqPage.HandleContact | src/app/help/faq/page.tsx:528-530 | the contact form is toggled as `ContactToggled` says; nothing else changes |
| Faq.FaqPage.HandleSubmitContact | src/app/help/faq/page.tsx:532-538 | sending closes the form and clears the email and the message |
| Faq.FaqPage.HandleCancelContact | src/app/help/faq/page.tsx:540-544 | cancelling closes the form and clears the email and the message |

## Left out

- HTTP and `fetch`: every gateway reply, status reply and sale reply is a parameter of the operation that receives it.
- The database client: the store is a value, and a class with sequence fields. Each request is one sequential step; concurrent requests and `$transaction` atomicity are not modelled.
- The session, `process.env` and authentication are parameters, and so are `Date.now()`, `new Date().getFullYear()` and the 2-second and 0-second timers.
- JavaScript numbers are exact reals: IEEE rounding is not modelled, and neither are digits beyond those `toFixed(2)` shows.
- `parseFloat` is a parameter: its result, with `None` for NaN.
- CardServ.Fixed2: `toFixed(2)` is modelled for values below 10^21 over exact reals; only whole numbers of cents are proved to read back (`Fixed2OfCents`).
- Common.Trim: whitespace is the ASCII subset of JavaScript's `\s`.
- Common.ToLower: only the ASCII letters are lowered; other Unicode case mappings are not modelled.
- Bookkeeping.SaleStep: the request body's fields are typed (email, amount, currency, description, tokens). Body shapes that would make the database reject the insert are not modelled.
- Bookkeeping.LedgerPost: `Number(body.delta ?? 0)` is taken to be a number, so an Adjust with a non-numeric `delta` (which writes `NaN` to the balance and the entry) is not modelled; `type`, `currency` and `receiptUrl` are taken to be strings.
- TokenStore.Store.PostLedger: performs `Bookkeeping.LedgerPost`, with the same two limits.
- Bookkeeping.CheckOne: a truthy `orderState` that is not a string is written as the status as it is; whether the database accepts it is not modelled.
- Drafts.DraftStore.Post: a body that is the JSON text `null` throws at `body.currency`, which answers 500 with nothing created; the model's body always has fields.
- Drafts.NewDraft: `toDec` and the amounts are taken on numbers only, and `body.due` (a `Date`) is not modelled.
- The sale route's 302 is a `Redirected` answer; the JSON bodies of the answers are not modelled beyond the fields listed.
- The checkout page's VAT lines, its `localStorage` read, and its toasts, confetti and navigation timer. A crash on a missing `sale.data` is the outcome `Crashed`, rather than the error toast the catch block shows.
- `formatCurrency`, `formatCurrencyPrecise`, `AnimatedPrice`, gtag analytics, the FAQ page's `highlightText` and URL syncing, and the FAQ entries other than the pricing answer. These are presentation; the filters are proved for any list.
- The status, token and orders routes, and the static legal, success and my-orders pages: they are thin wrappers or presentation.
- The check-orders route's per-order `updatedOrders` details: only their count is modelled.

## Findings

| source | as written | input that shows it | evidently intended | confidence | as-written member | corrected member |
|---|---|---|---|---|---|---|
| src/app/checkout/page.tsx:128-131 | after polling, navigation tests `sale.redirectUrl`; the immediate-redirect chain has already found it falsy, so the polled `redirectUrl` is never used | a sale answered with `{data: {orderMerchantId}}` and a first status reply `{data: {redirectUrl: "u"}}`: the page shows success and never goes to "u" | navigate to the redirect found by polling | high (proved; not executed) | Checkout.PolledRedirectIgnored | Checkout.IntendedFollowsPolledRedirect |
