/** What a sequence of webhook deliveries does to the store: purchases are an
    append-only log, subscription records are created only by activation, a
    failed subscription is restored only by a new activation, and an email no
    event names keeps its entries. */
module Lifecycle {
  import opened Wrappers
  import opened Store
  import opened Access

  /** The purchases the payment-succeeded events of `t` record for `email`, in delivery order. */
  function PurchasesFrom(t: seq<Delivery>, email: string): seq<Purchase>
    decreases |t|
  {
    if t == [] then []
    else
      var d := t[0];
      (if d.event.PaymentSucceeded? && Targets(d.event, email) then [PurchaseOf(d.event.payment, d.at)] else [])
      + PurchasesFrom(t[1..], email)
  }

  /** Whether `t` holds a subscription-active event for `email`. */
  predicate ActivatesIn(t: seq<Delivery>, email: string)
  {
    exists i :: 0 <= i < |t| && t[i].event.SubscriptionActive? && Targets(t[i].event, email)
  }

  /** A customer's purchase list after a trace is the list before it followed by
      one record per payment-succeeded event for that customer, duplicates included. */
  lemma {:induction false} PurchaseLog(s: Store, t: seq<Delivery>, email: string)
    ensures Purchases(Run(s, t), email) == Purchases(s, email) + PurchasesFrom(t, email)
    decreases |t|
  {
    if t != [] {
      PurchaseLog(Step(s, t[0]), t[1..], email);
    }
  }

  /** No handler removes a purchase, so once a customer has one, access is
      granted, by purchase, whatever is delivered afterwards. */
  lemma {:induction false} PurchaseAccessIsPermanent(s: Store, t: seq<Delivery>, email: string)
    requires |Purchases(s, email)| > 0
    ensures AccessOf(Run(s, t), email).hasActiveAccess
    ensures Product in AccessOf(Run(s, t), email).accessType
  {
    PurchaseLog(s, t, email);
  }

  /** Two deliveries in a row are handled one after the other. */
  lemma RunTwo(s: Store, a: Delivery, b: Delivery)
    ensures Run(s, [a, b]) == Step(Step(s, a), b)
  {
    assert [a, b][1..] == [b];
    assert Run(s, [a, b]) == Run(Step(s, a), [b]);
    assert [b][1..] == [];
    assert Run(Step(s, a), [b]) == Run(Step(Step(s, a), b), []);
  }

  /** The same payment delivered twice is recorded twice: nothing deduplicates on `payment_id`. */
  lemma RedeliveredPaymentIsRecordedTwice(s: Store, p: PaymentData, first: Instant, second: Instant)
    requires Truthy(p.customerEmail)
    ensures var t := [Delivery(PaymentSucceeded(p), first), Delivery(PaymentSucceeded(p), second)];
            Purchases(Run(s, t), p.customerEmail.value)
              == Purchases(s, p.customerEmail.value) + [PurchaseOf(p, first), PurchaseOf(p, second)]
  {
    RunTwo(s, Delivery(PaymentSucceeded(p), first), Delivery(PaymentSucceeded(p), second));
  }

  /** The entries of an email that no delivered event names stay as they were. */
  lemma {:induction false} UntouchedEmailKeepsEntries(s: Store, t: seq<Delivery>, email: string)
    requires forall i :: 0 <= i < |t| ==> !Targets(t[i].event, email)
    ensures SubscriptionOf(Run(s, t), email) == SubscriptionOf(s, email)
    ensures Purchases(Run(s, t), email) == Purchases(s, email)
    decreases |t|
  {
    if t != [] {
      UntouchedEmailKeepsEntries(Step(s, t[0]), t[1..], email);
    }
  }

  /** Starting from the empty store, an email that no event names has no access and no reasons. */
  lemma {:induction false} NeverNamedEmailHasNoAccess(t: seq<Delivery>, email: string)
    requires forall i :: 0 <= i < |t| ==> !Targets(t[i].event, email)
    ensures !AccessOf(Run(Empty, t), email).hasActiveAccess
    ensures AccessOf(Run(Empty, t), email).accessType == []
  {
    UntouchedEmailKeepsEntries(Empty, t, email);
  }

  /** Renewal and failure only touch an existing record, so a record that
      exists after a trace and not before was stored by an activation in it. */
  lemma {:induction false} RecordsComeFromActivation(s: Store, t: seq<Delivery>, email: string)
    requires email !in s.subscriptions
    requires email in Run(s, t).subscriptions
    ensures ActivatesIn(t, email)
    decreases |t|
  {
    if t == [] {
      assert false;
    } else if !(t[0].event.SubscriptionActive? && Targets(t[0].event, email)) {
      assert email !in Step(s, t[0]).subscriptions;
      RecordsComeFromActivation(Step(s, t[0]), t[1..], email);
      var i :| 0 <= i < |t[1..]| && t[1..][i].event.SubscriptionActive? && Targets(t[1..][i].event, email);
      assert t[i + 1] == t[1..][i];
    }
  }

  /** Renewal keeps the status, so a failed subscription stays failed, and
      grants no access, until a new activation for the same email. */
  lemma {:induction false} FailedStaysFailed(s: Store, t: seq<Delivery>, email: string)
    requires email in s.subscriptions && s.subscriptions[email].status == Failed
    requires !ActivatesIn(t, email)
    ensures email in Run(s, t).subscriptions && Run(s, t).subscriptions[email].status == Failed
    ensures !HasActiveSubscription(Run(s, t), email)
    decreases |t|
  {
    if t != [] {
      var s' := Step(s, t[0]);
      assert email in s'.subscriptions && s'.subscriptions[email].status == Failed;
      assert !ActivatesIn(t[1..], email);
      FailedStaysFailed(s', t[1..], email);
    }
  }

  /** Two activations for one email leave only the second record: last event wins. */
  lemma SecondActivationWins(s: Store, a: SubscriptionData, b: SubscriptionData, first: Instant, second: Instant)
    requires Truthy(a.customerEmail) && a.customerEmail == b.customerEmail
    ensures var t := [Delivery(SubscriptionActive(a), first), Delivery(SubscriptionActive(b), second)];
            SubscriptionOf(Run(s, t), a.customerEmail.value) == Some(RecordOf(b, second))
  {
    RunTwo(s, Delivery(SubscriptionActive(a), first), Delivery(SubscriptionActive(b), second));
  }

  /** A cancellation or any other event kind without a callback leaves the store as it was. */
  lemma UnhandledKindIsIgnored(s: Store, kind: string, at: Instant)
    ensures Run(s, [Delivery(Other(kind), at)]) == s
  {
  }
}
