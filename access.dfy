/** The two readers of the store: the access API's JSON view and the home page. */
module Access {
  import opened Wrappers
  import opened Store

  datatype AccessKind = Subscription | Product

  /** The object the access API returns (server.js:265-271): the email, its
      subscription record or null, its purchases or [], and the derived flags. */
  datatype AccessView = AccessView(
    email: string,
    subscription: Option<SubRecord>,
    products: seq<Purchase>,
    hasActiveAccess: bool,
    accessType: seq<AccessKind>)

  /** A subscription record exists for the email and its status is active (server.js:168, 273). */
  predicate HasActiveSubscription(s: Store, email: string)
  {
    email in s.subscriptions && s.subscriptions[email].status == Active
  }

  /** The access view of `email` (server.js:265-281). Access holds exactly when
      there is an active subscription or at least one purchase; `accessType`
      lists the reasons, subscription before product, each at most once; an
      email the store has never seen gets no access and no reasons. */
  function AccessOf(s: Store, email: string): (v: AccessView)
    ensures v.email == email && v.subscription == SubscriptionOf(s, email) && v.products == Purchases(s, email)
    ensures v.hasActiveAccess <==> HasActiveSubscription(s, email) || |Purchases(s, email)| > 0
    ensures v.hasActiveAccess <==> v.accessType != []
    ensures Subscription in v.accessType <==> HasActiveSubscription(s, email)
    ensures Product in v.accessType <==> |Purchases(s, email)| > 0
    ensures v.accessType in {[], [Subscription], [Product], [Subscription, Product]}
    ensures email !in s.subscriptions && email !in s.products ==> !v.hasActiveAccess && v.accessType == []
  {
    var bySubscription, byProduct := HasActiveSubscription(s, email), |Purchases(s, email)| > 0;
    var reasons :=
      if bySubscription && byProduct then [Subscription, Product]
      else if bySubscription then [Subscription]
      else if byProduct then [Product]
      else [];
    AccessView(email, SubscriptionOf(s, email), Purchases(s, email), reasons != [], reasons)
  }

  /** What the home page shows (server.js:161-258), without its HTML. */
  datatype HomePage =
    | AskForEmail
      /** the welcome page: the active subscription, when there is one, and every purchase */
    | Welcome(activeSubscription: Option<SubRecord>, purchases: seq<Purchase>)
    | BuyPrompt(email: string)

  /** The home page for the `email` query parameter (server.js:165-172): it
      grants access by the same rule as the access API. */
  function HomePageOf(s: Store, email: Option<string>): (p: HomePage)
    ensures !Truthy(email) <==> p == AskForEmail
    ensures Truthy(email) ==> (p.Welcome? <==> AccessOf(s, email.value).hasActiveAccess)
    ensures Truthy(email) && !p.Welcome? ==> p == BuyPrompt(email.value)
    ensures p.Welcome? ==>
              && (p.activeSubscription.Some? <==> Subscription in AccessOf(s, email.value).accessType)
              && (p.activeSubscription.Some? ==> p.activeSubscription == AccessOf(s, email.value).subscription)
              && p.purchases == AccessOf(s, email.value).products
  {
    if !Truthy(email) then AskForEmail
    else
      var e := email.value;
      var subscription := SubscriptionOf(s, e);
      var products := Purchases(s, e);
      var hasActiveSubscription := subscription.Some? && subscription.value.status == Active;
      var hasProducts := |products| > 0;
      if hasActiveSubscription || hasProducts then
        Welcome(if hasActiveSubscription then subscription else None, products)
      else
        BuyPrompt(e)
  }
}
