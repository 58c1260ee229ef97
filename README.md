# remnawave-telegram-shop in Dafny

A model of the core of a Telegram bot that sells VPN subscriptions managed by
a Remnawave panel. The centre is the purchase lifecycle:

- **Creation.** A customer picks a period and a payment backend (Crypto Pay,
  YooKassa or Telegram Stars). The payment service inserts a `new` purchase
  row, asks the gateway for an invoice, and marks the row `pending` with the
  gateway's correlation fields.
- **Reconciliation.** Two pollers reconcile pending purchases with the
  gateways every five seconds. A paid invoice leads to ProcessPurchaseById:
  it provisions the subscription on the panel, marks the purchase `paid` and
  stores the subscription link and expiry on the customer. A cancelled
  YooKassa payment cancels its purchase.

Around that core the model covers:

- the repositories (purchases, customers, referrals) as tables of rows;
- the settings loader;
- the Remnawave, YooKassa and Crypto Pay clients, over the HTTP answers they
  receive;
- the callback-data parser and the sell and crypto-checkout handlers;
- the connect screen, the country listing and the country initialisation;
- the expiry notifier and the Tribute webhook;
- the directory sync from the panel;
- the translation manager, the TTL cache and the log masking helpers.

How the model is built:

- **Tables and services are classes.** The repositories, the payment service,
  the settings, the translation manager, the cache and the handler are
  classes whose fields the methods update.
- **Each method is proved against a function.** The function states the
  operation on values: a `World` of tables and outgoing requests, or a record
  of settings. Lemmas then state what the source promises about those
  functions.
- **The outside world is an input.** Every answer from outside is a
  parameter: HTTP replies, database faults, the clock, the Telegram API.

## Model

| member | source | states |
|---|---|---|
| Purchases.EnumerationNames | internal/database/purchase.go:14-29 | the three invoice types and four statuses each have exactly their own column text, and only those texts denote a value |
| Purchases.UpdatesChangeOnlyNamedColumns | internal/database/purchase.go:170-199 | a partial update changes only the columns it names |
| Purchases.UpdatesKeepFixedColumns | internal/database/purchase.go:170-199 | no partial update changes id, amount, owner, months, currency, expiry or invoice type |
| Purchases.LastStatusWins | internal/database/purchase.go:179-181 | the last assignment of the status column decides the status |
| Purchases.FindMeansRowWithId | internal/database/purchase.go:131-168 | FindById yields exactly the row carrying the id, and absence exactly when no row carries it |
| Purchases.SelectExact | internal/database/purchase.go:79-129 | FindByInvoiceTypeAndStatus returns exactly the rows matching both type and status; empty iff none match |
| Purchases.UpdatedFrame | internal/database/purchase.go:170-199 | UpdateFields touches only the row with that id, keeps ids serial; an empty update or a missing id changes nothing |
| Purchases.MarkedPaidRow | internal/database/purchase.go:201-210 | MarkAsPaid sets `paid` and the payment time whatever the previous status; repeating it keeps the row paid with the later time |
| Purchases.UpdatedLastRow | internal/database/purchase.go:58-77 | updating the row just inserted keeps the earlier rows and updates only the new last row |
| Purchases.CreateThenFind | internal/database/purchase.go:58-77 | the id Create returns is fresh; FindById of it yields the inserted values, and every other id finds what it found before |
| Purchases.PurchaseRepository.Create | internal/database/purchase.go:58-77 | a failing insert returns id 0 and changes nothing; otherwise the next serial id is returned and the row appended |
| Purchases.PurchaseRepository.FindById | internal/database/purchase.go:131-168 | the row with that id, or absence when no row has it |
| Purchases.PurchaseRepository.FindByInvoiceTypeAndStatus | internal/database/purchase.go:79-129 | the loop collects exactly the matching rows in table order |
| Purchases.PurchaseRepository.UpdateFields | internal/database/purchase.go:170-199 | fails iff the update is non-empty and no row has the id; the table becomes the updated table |
| Purchases.PurchaseRepository.MarkAsPaid | internal/database/purchase.go:201-210 | fails iff no row has the id; otherwise only that row becomes paid at now |
| Customers.UpdatesChangeOnlyNamedColumns | internal/database/customer.go:154-183 | a partial update never changes id, Telegram id or creation time and leaves every unnamed column alone |
| Customers.FindMeansRowWithId | internal/database/customer.go:77-105 | FindById yields exactly the row with the id, and absence exactly when none has it |
| Customers.FindTelegramMatches | internal/database/customer.go:107-134 | FindByTelegramId matches on the Telegram id, is absent iff no row matches, and never loads the language |
| Customers.InRangeExact | internal/database/customer.go:30-75 | FindByExpirationRange returns exactly the customers with a set expiry between the two bounds, both included |
| Customers.InRangeDistinctIds | internal/database/customer.go:30-75 | the range query returns rows in increasing id order, all of them existing ids |
| Customers.UpdatedFrame | internal/database/customer.go:154-183 | UpdateFields touches only the row with that id; an empty update or a missing id changes nothing |
| Customers.CreateThenFind | internal/database/customer.go:136-152 | a created customer is found under a fresh id with the given Telegram id, expiry and language and no link |
| Customers.CustomerRepository.FindByExpirationRange | internal/database/customer.go:30-75 | the loop returns the range query's rows in table order |
| Customers.CustomerRepository.FindById | internal/database/customer.go:77-105 | the row with that id, or absence when none has it |
| Customers.CustomerRepository.FindByTelegramId | internal/database/customer.go:107-134 | the first row with that Telegram id, without its language |
| Customers.CustomerRepository.Create | internal/database/customer.go:136-152 | a failing insert changes nothing; otherwise one row is appended with only Telegram id, expiry and language taken |
| Customers.CustomerRepository.UpdateFields | internal/database/customer.go:154-183 | fails iff the update is non-empty and no row has the id; the table becomes the updated table |
| Referrals.ByReferrerExact | internal/database/referal.go:49-79 | the referrer's rows are exactly the rows whose referrer matches |
| Referrals.InsertNewestFirstKeepsOrder | internal/database/referal.go:53 | inserting into a newest-first list keeps it newest first |
| Referrals.InsertNewestFirstAddsOne | internal/database/referal.go:53 | inserting adds exactly that referral to the list's contents |
| Referrals.CollectStep | internal/database/referal.go:67-74 | one row of the listing loop keeps the list newest first and equal, as a multiset, to the referrer's rows so far |
| Referrals.GrantedProperties | internal/database/referal.go:122-141 | MarkBonusGranted sets the flag on that row only; repeating it changes nothing more |
| Referrals.CountMatchesList | internal/database/referal.go:81-97 | CountByReferrer's number equals the length of FindByReferrer's list |
| Referrals.ReferralRepository.Create | internal/database/referal.go:29-47 | a failing insert returns nothing and changes nothing; otherwise the stored row is used now, without the bonus, under the next id |
| Referrals.ReferralRepository.FindByReferrer | internal/database/referal.go:49-79 | the referrer's referrals, most recently used first, each exactly once |
| Referrals.ReferralRepository.CountByReferrer | internal/database/referal.go:81-97 | the number of the referrer's rows |
| Referrals.ReferralRepository.FindByReferee | internal/database/referal.go:99-120 | a row of the referee when one exists; absence iff none exists |
| Referrals.ReferralRepository.MarkBonusGranted | internal/database/referal.go:122-141 | fails iff no row has the id; the table becomes the granted table |
| Payment.ProcessNeedsPurchaseAndCustomer | internal/payment/payment.go:49-66 | a missing purchase fails with PurchaseNotFound, a present purchase whose customer is missing fails with CustomerNotFound for that customer id; either way nothing is written and no provisioning request goes out |
| Payment.ProcessProvisionsFirst | internal/payment/payment.go:68-71 | once both rows exist, one provisioning request for Month·30 days at the traffic limit goes out before any write; its failure writes nothing |
| Payment.ProcessSucceeds | internal/payment/payment.go:68-104 | after successful provisioning the purchase is paid at now and the customer holds the panel's link and expiry; no other row changes; only a send failure is reported |
| Payment.ReprocessProvisionsAgain | internal/payment/payment.go:49-104 | the status is never checked: processing a paid purchase provisions a second time |
| Payment.CreateRules | internal/payment/payment.go:106-236 | unknown types are rejected without writes; otherwise one `new` row is inserted, and it turns `pending` with the gateway's id and URL only when the gateway succeeds (Stars: always pending) |
| Payment.CryptoRow | internal/payment/payment.go:119-161 | the crypto row: `pending` with the invoice id and URL after a successful invoice, `new` without them after a gateway error |
| Payment.YookasaRow | internal/payment/payment.go:163-196 | the YooKassa row: `pending` with the payment id and confirmation URL after success, `new` without them after an error |
| Payment.StarsRow | internal/payment/payment.go:198-236 | the Stars row turns `pending` without any correlation field, and no error is reported |
| Payment.CreateInsertFault | internal/payment/payment.go:128-131 | a failed insert writes nothing; crypto and YooKassa report it, the Telegram path (207-210) swallows it |
| Payment.CryptoPayloadNamesPurchase | internal/payment/payment.go:133-142 | the crypto invoice carries payload `purchaseId=<new row id>` |
| Payment.CancelRules | internal/payment/payment.go:267-288 | a missing id fails without writes; otherwise the row becomes `cancel` whatever its status, paid included, and nothing else changes |
| Payment.TrialRules | internal/payment/payment.go:238-265 | an unknown Telegram id fails with nothing written; otherwise the trial is provisioned for that customer; on success its stored row gets the link and expiry, no other customer changes and the link is returned; a panel failure writes no customer; purchases are untouched |
| Payment.OperationsKeepCoherence | internal/payment/payment.go:49-288 | every service operation keeps the correlation fields coherent: only a gateway's own rows carry its fields, and a pending YooKassa row has its payment id |
| Payment.StatusChangesKeepCoherence | internal/payment/payment.go:73-76 | paying or cancelling a purchase keeps its correlation fields |
| Payment.CreateKeepsCoherence | internal/payment/payment.go:106-236 | a new purchase is stored coherent after rows that are left alone |
| Payment.PaymentService.ProcessPurchaseById | internal/payment/payment.go:49-104 | the tables, requests and messages after the call are those of the Process function |
| Payment.PaymentService.CreatePurchase | internal/payment/payment.go:106-117 | the tables, requests and URL after the call are those of the Create function |
| Payment.PaymentService.CreateCryptoInvoice | internal/payment/payment.go:119-161 | the state after the call is that of the crypto path |
| Payment.PaymentService.CreateYookasaInvoice | internal/payment/payment.go:163-196 | the state after the call is that of the YooKassa path |
| Payment.PaymentService.CreateTelegramInvoice | internal/payment/payment.go:198-236 | the state after the call is that of the Stars path |
| Payment.PaymentService.ActivateTrial | internal/payment/payment.go:238-265 | the state after the call is that of the Trial function |
| Payment.PaymentService.CancelPayment | internal/payment/payment.go:267-288 | the state after the call is that of the Cancel function |
| App.AdminGate | cmd/app/main.go:127-135 | the wrapped handler runs iff a message is present and sent by the configured admin |
| App.InvoiceCheckerJobs | cmd/app/main.go:212-245 | no scheduler iff neither polled gateway is enabled; otherwise one five-second job per enabled gateway, crypto first |
| App.SkipsChangeNothing | cmd/app/main.go:266-299 | a pass of skips leaves tables and requests as they were |
| App.PendingYookasaHaveIds | cmd/app/main.go:268 | every pending YooKassa purchase of a coherent table has the payment id the poller dereferences |
| App.YookasaDecisions | cmd/app/main.go:266-299 | per purchase: a failed fetch or unpaid payment is skipped, a canceled one cancels that purchase, a paid, non-cancelled one is processed under its metadata's purchase id (0 if not a number), and only such a one is processed |
| App.PaidPaymentNamesPurchase | cmd/app/main.go:287-292 | a paid payment whose metadata holds the decimal purchase id is processed under that id |
| App.ActOnPayment | cmd/app/main.go:270-297 | one loop turn takes the decision and its effect on the service |
| App.CheckYookasaInvoice | cmd/app/main.go:247-300 | one pass: the decisions for the pending YooKassa purchases, carried out in order |
| App.InvoiceIdsExact | cmd/app/main.go:321-331 | the listed ids are exactly those of pending crypto purchases with an id, none holds a comma; empty iff no purchase has one |
| App.QueryCarriesEveryId | cmd/app/main.go:333-334 | splitting the joined query at commas gives back the id list |
| App.PurchaseIdIsSecondPiece | cmd/app/main.go:342 | the purchase id is Atoi of the text between the first and second `=` |
| App.PayloadWithoutSeparatorPanics | cmd/app/main.go:342 | a payload without `=` makes the poller panic |
| App.ServicePayloadRoundTrip | cmd/app/main.go:342 | the payload the payment service writes reads back as its purchase id |
| App.HandlerPayloadReadsAsZero | cmd/app/main.go:342 | the handler's `customerId=<c>&purchaseId=<n>` payload reads back as purchase 0 |
| App.CryptoSweepRules | cmd/app/main.go:340-351 | the crypto poller never cancels; each action processes the purchase an eligible invoice names; when the pass does not panic, every eligible invoice's purchase is processed; it panics iff an eligible payload lacks `=` |
| App.SweepInInvoiceOrder | cmd/app/main.go:340-351 | the pass acts in invoice order: the actions for the first j invoices begin the pass's actions, and an eligible j-th invoice's purchase is processed right after them |
| App.PanicEndsSweep | cmd/app/main.go:340-351 | after a panic the later invoices are never looked at |
| App.CollectInvoiceIds | cmd/app/main.go:321-327 | the loop lists exactly the invoice ids, in order |
| App.CheckCryptoPayInvoice | cmd/app/main.go:302-352 | one pass: the query sent, the decisions taken and their effect on the service |
| App.ProcessPaidInvoices | cmd/app/main.go:340-351 | the loop over fetched invoices takes the sweep's decisions and carries them out |
| App.ProcessInvoice | cmd/app/main.go:341-349 | one invoice of that loop |
| App.ReadPurchaseId | cmd/app/main.go:342 | the purchase id in a payload, or a panic |
| App.CollectExact | cmd/app/main.go:163-173 | the map has one entry per country code of an enabled, online node that passes the filter, holding that code's text |
| App.CountriesRule | cmd/app/main.go:155-198 | allowed countries of serving nodes, or all serving nodes when none is allowed; a failed node fetch stops start-up |
| App.CollectNodes | cmd/app/main.go:163-190 | either of the two loops builds the map of CollectExact for its filter: allowed countries first, every country in the fallback |
| App.InitCountries | cmd/app/main.go:155-198 | the two loops store the country map of CountriesRule |
| Handler.ParseCallbackData | internal/handler/handler.go:614-631 | the loop builds the parsed map |
| Handler.ParamsKeys | internal/handler/handler.go:622-628 | the keys are exactly those some `k=v` parameter names |
| Handler.ParamsLastWins | internal/handler/handler.go:622-628 | a key's value comes from the last parameter naming it |
| Handler.ParamsValues | internal/handler/handler.go:624-626 | every value is the text after the first `=` of a parameter |
| Handler.ParsedRules | internal/handler/handler.go:614-631 | data without `?` has no parameters; no value holds `?` or `&` |
| Handler.MonthParam | internal/handler/handler.go:622-628 | a lone `month=<m>` parses to exactly that entry |
| Handler.RouteCarriesMonth | internal/handler/handler.go:614-631 | `<route>?month=<m>` parses back to exactly month m |
| Handler.SellRoundTrip | internal/handler/handler.go:633-635 | parsing the sell data gives back exactly the month in decimal, and Atoi reads the month |
| Handler.CalculatePrice | internal/handler/handler.go:637-639 | the price is the period's price (internal/config/cofig.go:115-128) times the months |
| Handler.SellKeyboardRoutes | internal/handler/handler.go:242-264 | the keyboard's routes are those of the enabled backends, then start |
| Handler.SellKeyboardOrder | internal/handler/handler.go:242-264 | buttons come crypto, card, stars, each iff its backend is enabled, and the last leads back to start |
| Handler.SellKeyboardMonth | internal/handler/handler.go:246-258 | every payment button carries the month it was given |
| Handler.PayButtonsCarry | internal/handler/handler.go:246-258 | each payment button's data parses to exactly the month |
| Handler.CheckoutRules | internal/handler/handler.go:279-359 | nothing is written unless month, customer and insert succeed; then one `new` crypto row at the period's price and an invoice with the handler payload; pending and the pay button only after the invoice comes back |
| Handler.CheckoutRow | internal/handler/handler.go:299-358 | the row, invoice request and reply of a checkout whose month, customer and insert succeeded |
| Handler.CheckoutKeepsCoherence | internal/handler/handler.go:301-339 | the checkout keeps the shared purchase table coherent: its new row is a crypto row carrying only Crypto Pay's fields |
| Handler.Handler.CryptoCallbackHandler | internal/handler/handler.go:279-359 | the tables, invoices and edits after the call are those of CryptoCheckout, and the purchase table stays coherent for the payment service and the pollers |
| Connect.ConnectText | internal/handler/connect.go:87-115 | the active line with the expiry iff it is after now; otherwise only the no-subscription line; the link line iff active with a non-empty link |
| Connect.ConnectReply | internal/handler/connect.go:18-85 | no reply iff the lookup fails or finds no one; otherwise that customer's text, to the chat that asked, with a back button to start |
| Connect.UnknownChatGetsNothing | internal/handler/connect.go:19-27 | a chat whose Telegram id no customer has gets no reply |
| Countries.SortStringsOrdered | internal/utils/utils.go:19 | the sorted keys are in order |
| Countries.OrderedUnique | internal/utils/utils.go:19 | two ordered arrangements of the same strings are equal |
| Countries.SortedKeys | internal/utils/utils.go:15-19 | the sorted keys are exactly the map's keys, one each, strictly ascending |
| Countries.SortIgnoresOrder | internal/utils/utils.go:15-19 | whatever the map iteration order, the sorted keys are the same |
| Countries.LineRules | internal/utils/utils.go:22-35 | a line opens with the glyph for its position, holds the emoji and the country's name in the asked language, and ends with a line break |
| Countries.LineExists | internal/utils/utils.go:22-25 | a line exists iff the value holds a space; otherwise the name lookup panics |
| Countries.LinesStop | internal/utils/utils.go:21-36 | one panicking key leaves no listing |
| Countries.LinesRules | internal/utils/utils.go:21-36 | one line per key, the i-th for the i-th sorted key, only the last marked last; the listing exists iff every value holds a space |
| Countries.EmptyListing | internal/utils/utils.go:11-39 | an empty configuration lists nothing |
| Countries.BuildAvailableCountriesLists | internal/utils/utils.go:11-39 | the result is the listing of the sorted keys, or None where the code panics |
| Countries.WriteLines | internal/utils/utils.go:21-36 | the second loop writes the listing of the keys |
| Translation.GetText | internal/translation/translation.go:72-89 | the language's non-empty text, else the default language's text for the key, else the key |
| Translation.LoadFilesSucceeds | internal/translation/translation.go:44-63 | loading succeeds iff every `.json` file reads and decodes |
| Translation.LoadFilesLanguages | internal/translation/translation.go:44-63 | after a successful load, the languages are the earlier ones plus one per `.json` file, named without the suffix |
| Translation.LoadFilesStops | internal/translation/translation.go:52-60 | the first unreadable file ends loading; later files change nothing |
| Translation.InitRules | internal/translation/translation.go:35-70 | success only with the default language loaded; a directory error is returned; with all files readable, failure iff the default language is neither loaded nor a file |
| Translation.Manager.constructor | internal/translation/translation.go:25-33 | no translations, English as the default |
| Translation.Manager.InitTranslations | internal/translation/translation.go:35-70 | the loop leaves the map and error of the Init function |
| TtlCache.Lookup | internal/cache/cache.go:37-45 | found iff the key is present and now is not after its expiry; then its value, else (0, false) |
| TtlCache.SetThenGet | internal/cache/cache.go:28-45 | a Set is found up to and including its expiry, and not after |
| TtlCache.SetTouchesOneKey | internal/cache/cache.go:28-35 | Set leaves every other key's answer alone |
| TtlCache.SweepIsInvisible | internal/cache/cache.go:47-59 | the sweep removes exactly the expired entries, keeps the rest, and no later Get can tell it ran |
| TtlCache.Cache.constructor | internal/cache/cache.go:19-26 | an empty cache with the given TTL |
| TtlCache.Cache.Set | internal/cache/cache.go:28-35 | the key maps to the value, expiring at now + TTL |
| TtlCache.Cache.Get | internal/cache/cache.go:37-45 | the Lookup answer |
| TtlCache.Cache.CleanupExpired | internal/cache/cache.go:49-57 | one tick leaves exactly the unexpired entries |
| Mask.MaskHalf | utils/utils.go:16-27 | same length; under two characters unchanged; otherwise the first half kept and the rest `*`, at least as many masked as kept |
| Mask.MaskHidesTrailingDigits | utils/utils.go:8-14 | two numbers of equal length differing only in their trailing half of digits mask alike (when at least two digits) |
| DirectorySync.MapUserToCustomer | internal/sync/sync.go:99-105 | only Telegram id, expiry and subscription URL are set |
| DirectorySync.MappedExact | internal/sync/sync.go:39-50 | users without a Telegram id are skipped; every other user gives its customer |
| DirectorySync.PartitionExact | internal/sync/sync.go:62-72 | each mapped customer goes to exactly one list: update (created-at set to now) iff its Telegram id is stored, else create |
| DirectorySync.PageStepRules | internal/sync/sync.go:27-93 | one request for 100 users at the offset, then the lookup and the non-empty batches; a failed, missing or empty page ends the sync; the next offset is past the users read and below the total |
| DirectorySync.SyncTurn | internal/sync/sync.go:27-93 | one loop turn continues the sync from the next offset |
| DirectorySync.SyncPaging | internal/sync/sync.go:22-97 | the first request reads 100 users at offset 0; offsets strictly increase so no page is read twice; batches only for non-empty lists |
| DirectorySync.MapUsers | internal/sync/sync.go:37-50 | the mapping loop's ids and customers |
| DirectorySync.Split | internal/sync/sync.go:62-72 | the split loop's two lists |
| DirectorySync.ReadPage | internal/sync/sync.go:28-93 | one page's calls and next offset |
| DirectorySync.Sync | internal/sync/sync.go:22-97 | the calls of the whole sync |
| DirectorySync.NoPagesLeft | internal/sync/sync.go:27-94 | with no page left the calls made are the whole sync |
| DirectorySync.ReadNextPage | internal/sync/sync.go:28-93 | a loop turn, with what it leaves still to come |
| Notification.DaysUntilCountsDays | internal/notification/subscription.go:120-126 | d days later counts as d days, whatever the time of day |
| Notification.DaysUntilInWindow | internal/notification/subscription.go:108-126 | everyone in the window expires within 0 to 3 days |
| Notification.LastTributeWins | internal/notification/subscription.go:56-60 | every customer with a tribute purchase is in the map, under their last purchase listed |
| Notification.CustomerRules | internal/notification/subscription.go:64-101 | a tribute customer gets nothing unless one day remains, then a renewal processed only when created; any other customer gets one reminder whose button leads to `buy` |
| Notification.RemindersGoToNonTributeCustomers | internal/notification/subscription.go:64-101 | a reminder goes out exactly to the expiring customers without a tribute purchase |
| Notification.ExpirationRules | internal/notification/subscription.go:31-54 | the job looks exactly at customers expiring in [now, now+3 days]; none means no call; otherwise it asks for tributes first, and a failed query ends it |
| Notification.SubscriptionService.ProcessSubscriptionExpiration | internal/notification/subscription.go:31-106 | the error and calls of the Expiration function |
| Notification.IndexTributes | internal/notification/subscription.go:56-60 | the loop builds the customer-to-tribute map |
| Notification.NotifyEach | internal/notification/subscription.go:64-101 | the loop's calls are the pass's calls |
| Notification.NotifyOne | internal/notification/subscription.go:65-100 | one customer's calls |
| Tribute.PeriodToMonths | internal/tribute/tribute.go:95-108 | the months are 1, 3, 6 or 12 |
| Tribute.PeriodCaseInsensitive | internal/tribute/tribute.go:96 | a period and its lower-cased form give the same months |
| Tribute.PeriodNames | internal/tribute/tribute.go:96-104 | after lower-casing, exactly the quarterly names give 3 months, exactly "halfyearly" 6 and exactly the yearly names 12 |
| Tribute.UnknownPeriod | internal/tribute/tribute.go:105-106 | every period the table does not name, in any case, is one month |
| Tribute.Rejections | internal/tribute/tribute.go:36-71 | unreadable body or bad JSON: 400; missing or wrong signature: 401; no calls; an authentic event other than `new_subscription`: 200 with no calls |
| Tribute.NewSubscription | internal/tribute/tribute.go:73-91 | the customer is looked up, a purchase created for the payload's amount and months, processed only when created; 200 iff both succeed, else 500 |
| Yookasa.PaymentRequestFields | internal/yookasa/models.go:42-60 | captured at once, confirmed by redirect to the given URL, no payment method, and the given amount, receipt, metadata and description |
| Yookasa.DescriptionNamesMonth | internal/yookasa/client.go:47-57 | the description's words are "Подписка", "на", the month count, which reads back as the count, and the Russian word for "month" the count takes |
| Yookasa.InvoiceRequestRules | internal/yookasa/client.go:41-86 | `amount` roubles that read back as the number, the description, the return URL, a one-item receipt with the same amount, metadata keys customerId, purchaseId and username |
| Yookasa.CreatePayment | internal/yookasa/client.go:98-135 | success iff the answer is 200 or 201 with a decodable body, which is then the payment |
| Yookasa.CreateInvoice | internal/yookasa/client.go:41-96 | the request built, the idempotence key, and success exactly when CreatePayment succeeds |
| Yookasa.FetchPolicy | internal/yookasa/client.go:137-178 | at most 5 requests; every request but the last was answered 429; the first other answer decides; five 429s give up with an error |
| Yookasa.FetchCalls | internal/yookasa/client.go:145-175 | at most five requests, every one before the last answered 429 |
| Yookasa.FetchResult | internal/yookasa/client.go:145-177 | the last answer decides unless it is the fifth 429, which gives up with an error; a payment comes only with a 200 |
| Yookasa.FetchSleeps | internal/yookasa/client.go:167-171 | one sleep after each 429, the k-th 1s·2^k |
| Yookasa.SleepDelays | internal/yookasa/client.go:167-171 | the k-th sleep lasts 1s·2^k, counting from the first request |
| Yookasa.SleepCount | internal/yookasa/client.go:145-175 | one sleep per 429: as many as the requests before the deciding answer, or five after five 429s |
| Yookasa.GetPayment | internal/yookasa/client.go:137-178 | the loop's requests, sleeps and result are those of FetchFrom |
| Remnawave.GetUsers | internal/remnawave/client.go:52-84 | 404 is no page without error; 200 with a body is the page; any other status is the status error |
| Remnawave.GetNodes | internal/remnawave/client.go:308-348 | 200 with a body is the nodes; any other status, 404 included, is the status error; a transport failure keeps its cause |
| Remnawave.GetUserByTelegramId | internal/remnawave/client.go:234-265 | 404 is no user; 200 yields the first user; 200 with an empty list panics; other statuses are the status error |
| Remnawave.StatusTextsDiffer | internal/remnawave/client.go:338 | two status errors read alike iff their codes are equal |
| Remnawave.RetryableStatuses | internal/remnawave/client.go:390-408 | a status error is retried iff the status is 500, 502, 503 or 504 |
| Remnawave.TransportFailuresRetry | internal/remnawave/client.go:390-398 | a node request that got no response is always retried, since every error of http.Client.Do is a net.Error |
| Remnawave.RetryPolicy | internal/remnawave/client.go:350-388 | at most maxAttempts calls; every call but the last failed retryably; success or a non-retryable error ends at once; the k-th wait is initialDelay·2^k; no wait after the last attempt; exhaustion means every call failed retryably, and the last failure is reported; a cancelled context ends the run before an attempt or during a wait, never after the last attempt |
| Remnawave.RetryWithBackoff | internal/remnawave/client.go:350-388 | the loop's calls, waits and result are those of RetryFrom |
| Remnawave.MatchingExact | internal/remnawave/client.go:482-488 | the filtered inbounds are exactly those with a configured UUID, and no more than the panel listed |
| Remnawave.MatchingOne | internal/remnawave/client.go:483-487 | one inbound is kept exactly when its UUID is configured |
| Remnawave.MatchingAppend | internal/remnawave/client.go:482-488 | filtering a concatenation is concatenating the filtered parts: the filter keeps the panel's order and repeats |
| Remnawave.InboundSelectionRule | internal/remnawave/client.go:467-501 | all inbounds without a filter or without a match; otherwise the inbound-by-inbound filter itself, whose members are exactly the configured ones |
| Remnawave.FilterInbounds | internal/remnawave/client.go:476-501 | the loops compute that selection |
| Remnawave.FetchInbounds | internal/remnawave/client.go:442-502 | what getInbounds returns for a reply |
| Remnawave.UuidsOf | internal/remnawave/client.go:171-174 | one UUID per inbound, in order |
| Remnawave.CollectInboundIds | internal/remnawave/client.go:171-174 | the copy loop yields those UUIDs |
| Remnawave.UsernameRoundTrip | internal/remnawave/client.go:230-232 | the username splits at its only `_` back into the two ids |
| Remnawave.UsernameInjective | internal/remnawave/client.go:230-232 | distinct id pairs get distinct usernames |
| Remnawave.ExtensionsAdd | internal/remnawave/client.go:300-306 | a set expiry is extended independently of the clock, and two extensions add up to one |
| Remnawave.ProvisionRules | internal/remnawave/client.go:86-228 | a failed lookup sends nothing; no user: create an ACTIVE monthly-reset user `<customerId>_<telegramId>` expiring in `days` with the selected inbounds; a user: update it extending its expiry, filling in a missing Telegram id |
| Remnawave.CreateNeedsInbounds | internal/remnawave/client.go:166-174 | without an inbound list no create is sent: createUser panics |
| Remnawave.CreateOrUpdateUser | internal/remnawave/client.go:86-109 | the requests sent and the result are those of the Provisioned function |
| Settings.Price | internal/config/cofig.go:115-128 | 3, 6 and 12 months have their own price, anything else the 1-month price |
| Settings.StarsPrice | internal/config/cofig.go:130-143 | the same table over the Stars prices |
| Settings.LimitsAreGibibytes | internal/config/cofig.go:180-182 | a configured unit is 2^30 bytes, and the limits scale linearly |
| Settings.EnvBool | internal/config/cofig.go:243-245 | true iff the variable is the text "true" |
| Settings.EnvIntDefault | internal/config/cofig.go:231-241 | the default for an unset or empty variable, the parsed integer, or a panic naming the variable |
| Settings.EnvIntDefaultReadsWrittenInt | internal/config/cofig.go:231-241 | any integer written is read back; an unset variable gives the default |
| Settings.RemnawaveModeRule | internal/config/cofig.go:301-312 | the mode is "remote" or "local", "remote" when unset, and a panic iff anything else is set |
| Settings.ParseUuidsFailsFromPrefix | internal/config/cofig.go:344-352 | one piece that is not a UUID makes the whole list fail |
| Settings.ParseUuidsErrIsInbound | internal/config/cofig.go:341-359 | a failing list always fails on INBOUND_UUIDS |
| Settings.PricesRule | internal/config/cofig.go:285-297 | the prices are the parsed variables; with Stars on, an unset Stars price is the regular price |
| Settings.LoadModeRule | internal/config/cofig.go:247-366 | a successful load runs the panel in "remote" or "local", "remote" when unset |
| Settings.BadModeAborts | internal/config/cofig.go:304-305 | any other REMNAWAVE_MODE aborts loading |
| Settings.LaterStagesKeepMode | internal/config/cofig.go:318-365 | the stages after the panel's never change the mode |
| Settings.Settings.SetBotURL | internal/config/cofig.go:168-170 | only the bot URL changes, to the given one |
| Settings.Settings.InitConfig | internal/config/cofig.go:247-366 | success iff Load succeeds; then the settings are Load's, otherwise the variable that panics is reported |
| Settings.Settings.ReadIdentity | internal/config/cofig.go:253-283 | the admin, token, web-app, trial, port and auto-payment stage |
| Settings.Settings.ReadPrices | internal/config/cofig.go:285-297 | the prices stage |
| Settings.Settings.ReadStarsPrices | internal/config/cofig.go:291-297 | the Stars prices, each defaulting to the regular price |
| Settings.Settings.ReadPanel | internal/config/cofig.go:299-316 | the panel URL, mode, token and database URL |
| Settings.Settings.ReadGateways | internal/config/cofig.go:318-330 | the CryptoPay and YooKassa flags and their mandatory settings |
| Settings.Settings.ReadCryptoPay | internal/config/cofig.go:319-322 | the CryptoPay settings when enabled |
| Settings.Settings.ReadYookasa | internal/config/cofig.go:325-330 | the YooKassa settings when enabled |
| Settings.Settings.ReadLimits | internal/config/cofig.go:332-359 | traffic limit, referral days, links and inbound filter |
| Settings.Settings.ReadTribute | internal/config/cofig.go:361-365 | the Tribute settings, mandatory when the webhook URL is set |
| Settings.ReadInboundUuids | internal/config/cofig.go:341-359 | the loop parses the INBOUND_UUIDS list into a set, failing on the first bad piece |
| Text.ParseIntRoundTrip | internal/config/cofig.go:236 | Atoi reads back exactly what Itoa wrote |
| Purchases.PurchaseRepository.constructor | internal/database/purchase.go:52-56 | a repository over an empty, well-formed table |
| Customers.CustomerRepository.constructor | internal/database/customer.go:17-19 | a repository over an empty, well-formed table |
| Referrals.ReferralRepository.constructor | internal/database/referal.go:25-27 | a repository over an empty, well-formed table |
| Payment.PaymentService.constructor | internal/payment/payment.go:29-47 | a service over the given repositories and settings, with nothing yet requested or sent |
| Handler.Handler.constructor | internal/handler/handler.go:31-47 | a handler over the given repositories and settings, with no invoice and no edit yet |
| Notification.SubscriptionService.constructor | internal/notification/subscription.go:24-30 | a service over the given customer repository |
| Countries.SortStrings | internal/utils/utils.go:19 | sorting rearranges the keys without adding or losing any |
| Handler.SellRoutesRanked | internal/handler/handler.go:244-264 | the offered routes are in the fixed order crypto, card, stars, start |
| Settings.PanelSetsMode | internal/config/cofig.go:301-312 | after a successful panel stage the mode is the one the mode rule chose |
| Settings.GatewaysKeepMode | internal/config/cofig.go:318-330 | the gateway stage never changes the mode |
| Settings.LimitsKeepMode | internal/config/cofig.go:332-359 | the limits stage never changes the mode |
| Text.Split | internal/handler/handler.go:617 | strings.Split gives at least one piece |
| Text.JoinSplit | internal/handler/handler.go:617-622 | joining the pieces with the separator gives back the split text |
| Text.SplitJoin | cmd/app/main.go:333-334 | splitting joined pieces that hold no separator gives them back |
| Text.Cut | internal/handler/handler.go:624 | SplitN into two yields pieces iff the separator occurs; then the first holds no separator and both rebuild the text |
| Text.TrimSuffix | internal/translation/translation.go:49 | a present suffix is removed exactly, an absent one leaves the name alone |
| Text.ToLower | internal/tribute/tribute.go:96 | same length, each character lower-cased on its own |
| Tribute.ToLowerIdempotent | internal/tribute/tribute.go:96 | lower-casing twice is lower-casing once |

## Left out

- HTTP transport, JSON encoding and decoding, and request construction are not modelled. A reply is a status code plus an optional decoded body, or a transport failure.
- The Telegram Bot API is not modelled. Sent messages and edits are records of what would be sent, and the fate of a send is an input.
- HMAC-SHA256 and hex encoding are not modelled; the hex digest is an input function.
- Concurrency is not modelled: mutexes, `sync.Once`, tickers, cron schedules and goroutines. A poller pass, a cache sweep and a notifier run are each one method call.
- Clocks are not modelled. Time is an integer count of seconds, passed in as `now`, and one call uses one reading. Date formatting ("02.01.2006 15:04") and `fmt.Sprintf` texts are not modelled: a message carries its translation key and arguments.
- Floating point is not modelled. The purchase amount column (`float64`) is an integer, since every amount written is an integer price.
- SQL and the database are not modelled; tables are sequences with serial ids. A failing database is modelled only on inserts, as a `fault` flag. The select paths do not fail.
- Repository methods called by the notifier, the sync and the Tribute handler do not exist in this snapshot of the code. These are `FindTributesByCustomerIDs`, `FindByTelegramIds`, `CreateBatch` and `UpdateBatch`, plus a three-result `CreatePurchase` with a Tribute invoice type. Their answers are inputs, so the notifier and the webhook emit calls rather than drive the payment service.
- The country library (`countries.ByName`, names and emoji) is not modelled: names and flags are input functions. `config.Countries`, `IsCountryAllowed` and `SetCountries` are not part of this model; the country map and the filter are parameters.
- Go's map iteration order is an input: a sequence listing every key once.
- Purchases.Select and Customers.InRange: the SQL of FindByInvoiceTypeAndStatus and FindByExpirationRange (internal/database/purchase.go:80-86, internal/database/customer.go:31-40) has no ORDER BY, so PostgreSQL may return the rows in any order. The model fixes one admissible order, insertion (id) order; the pollers and the notifier treat each row on its own.
- Countries.Below compares code points. Go compares UTF-8 bytes, and the two orders agree.
- Remnawave.InboundSelection and Settings.InboundUuids: in this snapshot `config.InboundUUIDs()` (internal/config/cofig.go:64-66) returns a `map[uuid.UUID]uuid.UUID`, and `getInbounds` (internal/remnawave/client.go:476-479) stores those values as keys of a `map[string]bool`, which does not type-check. The model reads the configured UUIDs as their canonical text and matches them against `inbound.UUID.String()`.
- Settings.Load: loading `.env` with godotenv when DISABLE_ENV_FILE is not "true" (internal/config/cofig.go:248-252) is not modelled. The environment map is the input after that step.
- Text.ToLower lower-cases the bytes of ASCII letters only and leaves multi-byte UTF-8 sequences unchanged. Go lower-cases those as runes and maps U+0130 (capital I with dot above) to 'i' and U+212A KELVIN SIGN to 'k'. No period name holds an 'i' or a 'k', so every period compares the same.
- Panics are modelled as error values, or as None for a result that cannot exist.
- Mask.MaskHalfInt64: the 64-bit range of the input is not modelled. Mask.MaskHalfInt and Mask.MaskHalfInt64 have no contract of their own; Mask.MaskHidesTrailingDigits states their property.
- Text.ParseInt: Atoi's 64-bit range (an out-of-range error) is not modelled.
- Remnawave.RetryPolicy: the overflow of `1 << attempt` for 64 or more attempts is not modelled.
- Yookasa.CreatePayment: the response body in the status error's text, and the error while reading it, are not modelled.
- Yookasa.CreateInvoice: the freshness of the idempotence key (a new UUID per call) is an input.
- DirectorySync.SyncFrom reads at most `fuel` pages. The source loops until the panel's total is reached, which a well-behaved panel always allows.
- Handler.CalculatePrice: this snapshot calls `config.Price()` without the month, while internal/config/cofig.go:115 takes one. The model uses `Price(month) * month`.
- `handler.go` also defines ConnectCommandHandler, ConnectCallbackHandler and buildConnectText (internal/handler/handler.go:431-484 and 584-612). They duplicate `connect.go`; only the `connect.go` versions are modelled.
- The YooKassa, Telegram Stars, pre-checkout and success-payment handlers and the start, buy and trial screens are not modelled. They are Telegram-API screens outside the purchase core. The middleware that creates customers is not modelled either.
- Database migrations, the health-check server and `main`'s wiring are not modelled.
