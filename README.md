# Entitlement store of the pay demo server, in Dafny

The server (`server.js`) is a small storefront. It keeps two in-memory
dictionaries keyed by a customer's raw email: `userSubscriptions` holds one
subscription record per email, and `userProducts` holds a list of one-time
purchases per email. The payment provider's webhook callbacks write them.
The access API and the home page read them. The server also builds the URL of
the provider's hosted checkout page, and its success page checks the status
the checkout returns with.

The model has seven files:

- `wrappers.dfy` (module `Wrappers`): `Option`, and JavaScript truthiness of a
  possibly undefined string.
- `store.dfy` (module `Store`): the records, the event payloads, the store as
  a value, and the four callbacks as pure transitions (`PaySucceeded`,
  `SubActive`, `SubRenewed`, `SubFailed`). It also has `Step` for one delivery
  and `Run` for a sequence of deliveries.
- `server.dfy` (module `Server`): the class `EntitlementStore`. Its two map
  fields are the module-level dictionaries. Its callback methods update them
  in place, and each is proved to move the store exactly as the matching
  transition says. `UserAccess` builds the access view step by step, as the
  route does.
- `access.dfy` (module `Access`): the access view and the home page, as
  functions of the store.
- `lifecycle.dfy` (module `Lifecycle`): properties of whole event traces.
- `checkout.dfy` (module `Checkout`): the checkout URL, a reader that splits a
  URL into its path and its `&`-separated query fields, stopping at a `#`, and proofs that the
  URL reads back as intended. One finding is recorded below.
- `success.dfy` (module `Success`): the success page's status check.

Timestamps from `new Date()` are an `Instant` parameter. `encodeURIComponent`
is a function parameter `enc`. The only thing assumed of it is what section
18.2.6.5 of ECMAScript 2015 guarantees: its output never contains `?`, `&` or
`#`.

Facts about `server.js` that the model keeps:

- There is no cancellation handler (the callbacks are at server.js:84-148), so
  a cancellation event is one of the kinds that are only logged.
- Renewal only updates `next_billing_date` and `last_renewed`
  (server.js:133-134), so a failed subscription stays failed.
- A subscription's status is only ever `active` or `failed`.
- The success page (server.js:288-316) does no lookup at the provider. It
  shows the query parameters it was given.
- The return URL and the email are encoded before they go into the checkout
  URL (server.js:48, 53). The product id is not (see Findings).

The other entry point, `functions/[[path]].js`, behaves differently: it has a
cancellation handler, sets the status back to active on renewal and looks the
subscription or payment up on its success page. It is not part of this model.

## Model

| member | source | states |
|---|---|---|
| Store.PurchaseOf | server.js:95-102 | the appended purchase carries the event's payment id, product id, amount and currency, and the time of handling |
| Store.RecordOf | server.js:115-122 | an activation stores a fresh active record from the event's ids, billing date and amount, with no renewal time and no failure reason |
| Store.PaySucceeded | server.js:90-105 | with a truthy email, exactly one purchase is appended at the end of that email's list, and the list is created if absent; there is no dedup on payment id; other emails' lists and all subscriptions are unchanged; a falsy email changes nothing |
| Store.SubActive | server.js:113-125 | with a truthy email, the record for it is replaced unconditionally by the event's record; other keys and all purchases are unchanged; a falsy email changes nothing |
| Store.SubRenewed | server.js:131-137 | a no-op unless a truthy email has a record; otherwise only the next billing date and renewal time change, and the status and every other field are kept |
| Store.SubFailed | server.js:143-147 | a no-op unless a truthy email has a record; otherwise the status becomes failed and the reason is the event's; ids, billing date and the other fields are kept |
| Store.Step | server.js:81-155 | an event without a truthy email leaves the store unchanged, and an event changes no entry of an email it does not name |
| Server.EntitlementStore.constructor | server.js:21-22 | both dictionaries start empty |
| Server.EntitlementStore.OnPaymentSucceeded | server.js:84-106 | the in-place update moves the store exactly as PaySucceeded |
| Server.EntitlementStore.OnSubscriptionActive | server.js:108-126 | the in-place update moves the store exactly as SubActive |
| Server.EntitlementStore.OnSubscriptionRenewed | server.js:128-138 | the in-place field assignments move the store exactly as SubRenewed |
| Server.EntitlementStore.OnSubscriptionFailed | server.js:140-148 | the in-place field assignments move the store exactly as SubFailed |
| Server.EntitlementStore.HandleWebhook | server.js:81-155 | dispatching a delivery to its callback moves the store exactly as Step |
| Server.EntitlementStore.UserAccess | server.js:262-284 | the view built by setting the flag and pushing reasons is the access view of the current store |
| Access.AccessOf | server.js:265-281 | access holds iff there is an active subscription or a non-empty purchase list, iff the reasons are non-empty; the reasons are exactly the subsequence of [subscription, product] whose conditions hold, in that order, without duplicates; an unknown email gets false and [] |
| Access.HomePageOf | server.js:161-172 | no truthy email asks for one; otherwise the welcome page is shown iff the access view grants access, with the subscription only when it is active, and all purchases; else the buy prompt |
| Lifecycle.PurchaseLog | server.js:90-102 | after any trace, an email's purchases are its earlier purchases followed by one record per payment-succeeded event for it, in delivery order |
| Lifecycle.PurchaseAccessIsPermanent | server.js:84-148 | no handler removes purchases, so once an email has a purchase, access (by product) holds after any further trace |
| Lifecycle.RedeliveredPaymentIsRecordedTwice | server.js:92-102 | delivering the same payment twice records it twice |
| Lifecycle.UntouchedEmailKeepsEntries | server.js:84-148 | an email that no event in a trace names keeps its subscription and its purchases |
| Lifecycle.NeverNamedEmailHasNoAccess | server.js:262-284 | from the empty store, an email no event names has no access and no reasons |
| Lifecycle.RecordsComeFromActivation | server.js:128-148 | renewal and failure never create a record, so a record that appears during a trace comes from an activation for that email in it |
| Lifecycle.FailedStaysFailed | server.js:131-147 | a failed subscription stays failed and grants no access through any trace without an activation for its email, renewals included |
| Lifecycle.SecondActivationWins | server.js:113-122 | two activations for one email leave only the second record |
| Lifecycle.UnhandledKindIsIgnored | server.js:150-154 | an event kind without a callback, cancellation included, leaves the store unchanged |
| Checkout.Origin | server.js:38-40 | the live origin iff the environment is exactly 'live_mode', the test origin otherwise |
| Checkout.CheckoutUrl | server.js:51-53 | the URL starts with the live origin iff the environment is 'live_mode' |
| Checkout.BuildCheckoutUrl | server.js:38-53 | the URL built by appending the email field in place is origin + "/" + product id + "?" + the query |
| Checkout.CheckoutUrlReadsBack | server.js:51-53 | for a product id without '?' or '#', the URL's path is origin + "/" + product id, and its query fields are exactly quantity=1, redirect_url=Enc(success URL) and, iff the email is truthy, email=Enc(email) |
| Checkout.ProductIdRewritesQuery | server.js:51 | with product id "p?quantity=99&x=", the first query field is quantity=99 and quantity=1 is not a field |
| Checkout.ProductIdDropsQuery | server.js:51 | with product id "p#x", the path is origin + "/p" and the URL has no query: quantity, return URL and email all fall into the fragment |
| Checkout.SafeCheckoutUrl | server.js:51-53 | with the product id encoded, the URL still starts with the live origin iff the environment is 'live_mode' |
| Checkout.SafeCheckoutUrlReadsBack | server.js:51-53 | with the product id encoded, every URL reads back as origin + "/" + Enc(product id) and exactly the intended query fields |
| Success.SuccessPageOf | server.js:292-304 | the 400 page iff the status is neither 'succeeded' nor 'active', showing the status or 'unknown'; otherwise the 200 page, showing the email or 'your email' |

## Left out

- Express routing, middleware, static files and `app.listen` (server.js:12-18, 346-349) are HTTP plumbing.
- The provider client and the `/api/checkout` routes (server.js:7-10, 66-78) are calls into a foreign SDK with no visible logic.
- Webhook signature checks and payload parsing (server.js:81-82) belong to a foreign library. Payloads are already-verified values with optional fields, and an email is a string or absent (a non-string value is not modelled).
- `onPayload` and all logging (server.js:150-154 and the `console` calls) only print.
- HTML, `generateHtmlPage` and date formatting (server.js:173-257, 293-315, 318-344) are presentation. Pages are modelled by the data they show.
- The success URL (server.js:44-47) is built by the URL API and is taken as an input. So is the 500 page (server.js:58-61), which only that API can trigger by throwing on a malformed return URL.
- A query parameter given more than once (which Express turns into an array) is not modelled. Query parameters are strings or absent.
- JavaScript plain objects inherit properties. An email equal to an inherited name, such as `constructor`, finds a value that is not a record (the access API would read a function's `length`). The model treats both dictionaries as plain maps.
- Setting `failure_reason` to `undefined` and leaving it unset are the same in the model (`None`). JSON output does not tell them apart.
- Handlers run one at a time on the event loop, so deliveries are modelled as a sequential trace. Nothing else is concurrent.
- The second entry point `functions/[[path]].js` is not part of this model.
- Store.Purchase: the `status: 'active'` field of a purchase (server.js:99), which the access API returns, is not stored, because it is the same constant for every purchase.

## Findings

| source | as written | input that shows it | evidently intended | confidence | as-written member | corrected member |
|---|---|---|---|---|---|---|
| server.js:51 | the product id from the route is put into the checkout URL unencoded | request path `/checkout/p%3Fquantity%3D99%26x%3D`; Express decodes the route parameter to `p?quantity=99&x=`, and the URL's query then starts with quantity=99, while quantity=1 becomes part of the field `x=?quantity=1`; request path `/checkout/p%23x` gives `p#x`, and the whole query then falls into the fragment | the product id encoded like the return URL and the email, so that the query is always exactly quantity=1, redirect_url and email | medium, not executed | Checkout.ProductIdRewritesQuery, Checkout.ProductIdDropsQuery | Checkout.SafeCheckoutUrlReadsBack |

`Checkout.BuildCheckoutUrl` still models the code as written. The corrected
URL is `Checkout.SafeCheckoutUrl`.
