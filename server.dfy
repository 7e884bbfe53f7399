/** The module-level state of server.js and the code that updates and reads it in place. */
module Server {
  import opened Wrappers
  import opened Store
  import opened Access

  /** `userSubscriptions` and `userProducts` (server.js:21-22), updated by the
      webhook callbacks and read by the access API. */
  class EntitlementStore {
    var subscriptions: map<string, SubRecord>
    var products: map<string, seq<Purchase>>

    /** The abstract value of the two dictionaries. */
    function State(): Store
      reads this
    {
      Store(subscriptions, products)
    }

    /** Both dictionaries start empty. */
    constructor ()
      ensures State() == Empty
    {
      subscriptions := map[];
      products := map[];
    }

    /** onPaymentSucceeded (server.js:84-106) */
    method OnPaymentSucceeded(d: PaymentData, now: Instant)
      modifies this
      ensures State() == PaySucceeded(old(State()), d, now)
    {
      var customerEmail := d.customerEmail;
      if Truthy(customerEmail) {
        var email := customerEmail.value;
        if email !in products {
          products := products[email := []];
        }
        products := products[email := products[email] + [PurchaseOf(d, now)]];
      }
    }

    /** onSubscriptionActive (server.js:108-126) */
    method OnSubscriptionActive(d: SubscriptionData, now: Instant)
      modifies this
      ensures State() == SubActive(old(State()), d, now)
    {
      var customerEmail := d.customerEmail;
      if Truthy(customerEmail) {
        subscriptions := subscriptions[customerEmail.value := RecordOf(d, now)];
      }
    }

    /** onSubscriptionRenewed (server.js:128-138) */
    method OnSubscriptionRenewed(d: SubscriptionData, now: Instant)
      modifies this
      ensures State() == SubRenewed(old(State()), d, now)
    {
      var customerEmail := d.customerEmail;
      if Truthy(customerEmail) && customerEmail.value in subscriptions {
        var email := customerEmail.value;
        subscriptions := subscriptions[email := subscriptions[email].(nextBillingDate := d.nextBillingDate)];
        subscriptions := subscriptions[email := subscriptions[email].(lastRenewed := Some(now))];
      }
    }

    /** onSubscriptionFailed (server.js:140-148) */
    method OnSubscriptionFailed(d: SubscriptionData)
      modifies this
      ensures State() == SubFailed(old(State()), d)
    {
      var customerEmail := d.customerEmail;
      if Truthy(customerEmail) && customerEmail.value in subscriptions {
        var email := customerEmail.value;
        subscriptions := subscriptions[email := subscriptions[email].(status := Failed)];
        subscriptions := subscriptions[email := subscriptions[email].(failureReason := d.failureReason)];
      }
    }

    /** The webhook route (server.js:81-155): the middleware hands each verified
        event to the callback for its kind; other kinds are only logged. */
    method HandleWebhook(d: Delivery)
      modifies this
      ensures State() == Step(old(State()), d)
    {
      match d.event
      case PaymentSucceeded(p) => OnPaymentSucceeded(p, d.at);
      case SubscriptionActive(x) => OnSubscriptionActive(x, d.at);
      case SubscriptionRenewed(x) => OnSubscriptionRenewed(x, d.at);
      case SubscriptionFailed(x) => OnSubscriptionFailed(x);
      case Other(_) =>
    }

    /** The access API (server.js:262-284): start from no access and set the
        flag and push a reason for each of the two conditions in turn. */
    method UserAccess(email: string) returns (userAccess: AccessView)
      ensures userAccess == AccessOf(State(), email)
    {
      userAccess := AccessView(
        email,
        if email in subscriptions then Some(subscriptions[email]) else None,
        if email in products then products[email] else [],
        false,
        []);
      if userAccess.subscription.Some? && userAccess.subscription.value.status == Active {
        userAccess := userAccess.(hasActiveAccess := true);
        userAccess := userAccess.(accessType := userAccess.accessType + [Subscription]);
      }
      if |userAccess.products| > 0 {
        userAccess := userAccess.(hasActiveAccess := true);
        userAccess := userAccess.(accessType := userAccess.accessType + [Product]);
      }
    }
  }
}
