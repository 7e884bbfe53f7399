/** The in-memory entitlement store of server.js as a value, and the four
    webhook callbacks as pure transitions on it. */
module Store {
  import opened Wrappers

  /** A timestamp taken with `new Date()`, passed in by the caller. */
  type Instant = int

  /** The values the `status` field of a subscription record takes in this code. */
  datatype SubStatus = Active | Failed

  /** One entry of `userSubscriptions` (server.js:115-122, extended in place at 133-134 and 145-146). */
  datatype SubRecord = SubRecord(
    subscriptionId: Option<string>,
    productId: Option<string>,
    status: SubStatus,
    nextBillingDate: Option<string>,
    activatedAt: Instant,
    recurringAmount: Option<int>,
    lastRenewed: Option<Instant>,
    failureReason: Option<string>)

  /** One entry of a customer's list in `userProducts` (server.js:95-102). Its
      `status` is always the string 'active', so it is not stored. */
  datatype Purchase = Purchase(
    paymentId: Option<string>,
    productId: Option<string>,
    purchasedAt: Instant,
    amount: Option<int>,
    currency: Option<string>)

  /** The fields a payment-succeeded payload's `data` carries that the callback reads. */
  datatype PaymentData = PaymentData(
    customerEmail: Option<string>,
    paymentId: Option<string>,
    productId: Option<string>,
    totalAmount: Option<int>,
    currency: Option<string>)

  /** The fields a subscription payload's `data` carries that the callbacks read. */
  datatype SubscriptionData = SubscriptionData(
    customerEmail: Option<string>,
    subscriptionId: Option<string>,
    productId: Option<string>,
    nextBillingDate: Option<string>,
    recurringPreTaxAmount: Option<int>,
    failureReason: Option<string>)

  /** A verified webhook event, tagged by kind. `Other` stands for every kind
      that has no callback (cancellation among them): it is only logged. */
  datatype Event =
    | PaymentSucceeded(payment: PaymentData)
    | SubscriptionActive(sub: SubscriptionData)
    | SubscriptionRenewed(sub: SubscriptionData)
    | SubscriptionFailed(sub: SubscriptionData)
    | Other(kind: string)

  /** One delivery of an event, with the time `new Date()` reads while it is handled. */
  datatype Delivery = Delivery(event: Event, at: Instant)

  /** The two module-level dictionaries `userSubscriptions` and `userProducts`. */
  datatype Store = Store(subscriptions: map<string, SubRecord>, products: map<string, seq<Purchase>>)

  /** The store as the process starts (server.js:21-22). */
  const Empty := Store(map[], map[])

  /** A customer's purchases; none when the store has no list for the email. */
  function Purchases(s: Store, email: string): seq<Purchase>
  {
    if email in s.products then s.products[email] else []
  }

  /** A customer's subscription record, when there is one. */
  function SubscriptionOf(s: Store, email: string): Option<SubRecord>
  {
    if email in s.subscriptions then Some(s.subscriptions[email]) else None
  }

  /** The email an event is keyed by, when it has one. */
  function EmailOf(e: Event): Option<string>
  {
    match e
    case PaymentSucceeded(p) => p.customerEmail
    case SubscriptionActive(d) => d.customerEmail
    case SubscriptionRenewed(d) => d.customerEmail
    case SubscriptionFailed(d) => d.customerEmail
    case Other(_) => None
  }

  /** Whether an event is handled for the customer `email`: it names that email and the email is truthy. */
  predicate Targets(e: Event, email: string)
  {
    Truthy(EmailOf(e)) && EmailOf(e).value == email
  }

  /** The record payment-succeeded appends (server.js:95-102). */
  function PurchaseOf(d: PaymentData, now: Instant): (p: Purchase)
    ensures p.paymentId == d.paymentId && p.productId == d.productId
    ensures p.purchasedAt == now && p.amount == d.totalAmount && p.currency == d.currency
  {
    Purchase(d.paymentId, d.productId, now, d.totalAmount, d.currency)
  }

  /** The record subscription-active stores (server.js:115-122): a fresh record,
      so a reason or renewal time of an earlier record is not carried over. */
  function RecordOf(d: SubscriptionData, now: Instant): (r: SubRecord)
    ensures r.status == Active && r.subscriptionId == d.subscriptionId && r.productId == d.productId
    ensures r.nextBillingDate == d.nextBillingDate && r.activatedAt == now
    ensures r.recurringAmount == d.recurringPreTaxAmount
    ensures r.lastRenewed == None && r.failureReason == None
  {
    SubRecord(d.subscriptionId, d.productId, Active, d.nextBillingDate, now, d.recurringPreTaxAmount, None, None)
  }

  /** onPaymentSucceeded (server.js:90-105): with a truthy email, append one
      purchase to the end of that email's list, creating the list when absent;
      there is no check on `payment_id`, so a redelivered payment is appended again. */
  function PaySucceeded(s: Store, d: PaymentData, now: Instant): (r: Store)
    ensures r.subscriptions == s.subscriptions
    ensures !Truthy(d.customerEmail) ==> r == s
    ensures Truthy(d.customerEmail) ==>
              && r.products.Keys == s.products.Keys + {d.customerEmail.value}
              && Purchases(r, d.customerEmail.value) == Purchases(s, d.customerEmail.value) + [PurchaseOf(d, now)]
    ensures forall k :: !(Truthy(d.customerEmail) && k == d.customerEmail.value) ==>
              (k in r.products <==> k in s.products) && Purchases(r, k) == Purchases(s, k)
  {
    if Truthy(d.customerEmail) then
      var email := d.customerEmail.value;
      s.(products := s.products[email := Purchases(s, email) + [PurchaseOf(d, now)]])
    else
      s
  }

  /** onSubscriptionActive (server.js:113-125): with a truthy email, store a new
      record for it, replacing whatever record was there. */
  function SubActive(s: Store, d: SubscriptionData, now: Instant): (r: Store)
    ensures r.products == s.products
    ensures !Truthy(d.customerEmail) ==> r == s
    ensures Truthy(d.customerEmail) ==>
              && r.subscriptions.Keys == s.subscriptions.Keys + {d.customerEmail.value}
              && r.subscriptions[d.customerEmail.value] == RecordOf(d, now)
    ensures forall k :: k in s.subscriptions && !(Truthy(d.customerEmail) && k == d.customerEmail.value) ==>
              k in r.subscriptions && r.subscriptions[k] == s.subscriptions[k]
  {
    if Truthy(d.customerEmail) then
      s.(subscriptions := s.subscriptions[d.customerEmail.value := RecordOf(d, now)])
    else
      s
  }

  /** onSubscriptionRenewed (server.js:131-137): only an existing record is
      touched, and only its next billing date and renewal time; its status is
      kept, so a failed subscription stays failed. */
  function SubRenewed(s: Store, d: SubscriptionData, now: Instant): (r: Store)
    ensures r.products == s.products
    ensures r.subscriptions.Keys == s.subscriptions.Keys
    ensures !(Truthy(d.customerEmail) && d.customerEmail.value in s.subscriptions) ==> r == s
    ensures Truthy(d.customerEmail) && d.customerEmail.value in s.subscriptions ==>
              var before := s.subscriptions[d.customerEmail.value];
              var after := r.subscriptions[d.customerEmail.value];
              && after.nextBillingDate == d.nextBillingDate
              && after.lastRenewed == Some(now)
              && after.status == before.status
              && after.subscriptionId == before.subscriptionId
              && after.productId == before.productId
              && after.activatedAt == before.activatedAt
              && after.recurringAmount == before.recurringAmount
              && after.failureReason == before.failureReason
    ensures forall k :: k in s.subscriptions && !(Truthy(d.customerEmail) && k == d.customerEmail.value) ==>
              r.subscriptions[k] == s.subscriptions[k]
  {
    if Truthy(d.customerEmail) && d.customerEmail.value in s.subscriptions then
      var email := d.customerEmail.value;
      var rec := s.subscriptions[email];
      s.(subscriptions := s.subscriptions[email := rec.(nextBillingDate := d.nextBillingDate, lastRenewed := Some(now))])
    else
      s
  }

  /** onSubscriptionFailed (server.js:143-147): only an existing record is
      touched; its status becomes failed and its failure reason is the event's,
      every other field is kept. */
  function SubFailed(s: Store, d: SubscriptionData): (r: Store)
    ensures r.products == s.products
    ensures r.subscriptions.Keys == s.subscriptions.Keys
    ensures !(Truthy(d.customerEmail) && d.customerEmail.value in s.subscriptions) ==> r == s
    ensures Truthy(d.customerEmail) && d.customerEmail.value in s.subscriptions ==>
              var before := s.subscriptions[d.customerEmail.value];
              var after := r.subscriptions[d.customerEmail.value];
              && after.status == Failed
              && after.failureReason == d.failureReason
              && after.subscriptionId == before.subscriptionId
              && after.productId == before.productId
              && after.nextBillingDate == before.nextBillingDate
              && after.activatedAt == before.activatedAt
              && after.recurringAmount == before.recurringAmount
              && after.lastRenewed == before.lastRenewed
    ensures forall k :: k in s.subscriptions && !(Truthy(d.customerEmail) && k == d.customerEmail.value) ==>
              r.subscriptions[k] == s.subscriptions[k]
  {
    if Truthy(d.customerEmail) && d.customerEmail.value in s.subscriptions then
      var email := d.customerEmail.value;
      var rec := s.subscriptions[email];
      s.(subscriptions := s.subscriptions[email := rec.(status := Failed, failureReason := d.failureReason)])
    else
      s
  }

  /** The webhook middleware's dispatch: each event kind goes to its callback;
      a kind without one only reaches the logging `onPayload` (server.js:150-154). */
  function Step(s: Store, d: Delivery): (r: Store)
    ensures !Truthy(EmailOf(d.event)) ==> r == s
    ensures forall k :: !Targets(d.event, k) ==>
              SubscriptionOf(r, k) == SubscriptionOf(s, k) && Purchases(r, k) == Purchases(s, k)
  {
    match d.event
    case PaymentSucceeded(p) => PaySucceeded(s, p, d.at)
    case SubscriptionActive(x) => SubActive(s, x, d.at)
    case SubscriptionRenewed(x) => SubRenewed(s, x, d.at)
    case SubscriptionFailed(x) => SubFailed(s, x)
    case Other(_) => s
  }

  /** The store after a sequence of deliveries handled one at a time. */
  function Run(s: Store, t: seq<Delivery>): Store
    decreases |t|
  {
    if t == [] then s else Run(Step(s, t[0]), t[1..])
  }
}
