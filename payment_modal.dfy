/** The client-side checkout: the modal that prices a premium subscription
    or a job boost, records a payment row, and after a simulated provider
    round-trip completes the row and grants the purchase itself. */
module Checkout {
  import opened Store
  import opened Payments
  import Reconcile

  /** What the modal sells; its `type` column value is `'premium'` or
      `'job_boost'`. */
  datatype PaymentType = Premium | JobBoost

  function TypeColumn(kind: PaymentType): (column: string)
    ensures column == PREMIUM || column == JOB_BOOST
    ensures column != SUBSCRIPTION
  {
    if kind == Premium then PREMIUM else JOB_BOOST
  }

  datatype PaymentDetails = PaymentDetails(
    amount: int,
    currency: string,
    description: string,
    title: string,
    features: seq<string>)

  function BaseAmount(kind: PaymentType): int {
    if kind == Premium then PREMIUM_MONTHLY else JOB_BOOST_PRICE
  }

  /** `getPaymentDetails()`: price, currency and the texts shown for the
      item, for the country the modal currently assumes. */
  function GetPaymentDetails(kind: PaymentType, userCountry: string): (d: PaymentDetails)
    ensures d.currency == CurrencyForRegion(Some(userCountry))
    ensures d.amount == ConvertAmount(BaseAmount(kind), d.currency)
    ensures |d.features| == 4
  {
    var currency := CurrencyForRegion(Some(userCountry));
    PaymentDetails(
      ConvertAmount(BaseAmount(kind), currency),
      currency,
      if kind == Premium then "Premium Monthly Subscription" else "Job Post Boost",
      if kind == Premium then "Upgrade to Premium" else "Boost Your Job Post",
      if kind == Premium
      then ["AI-Powered CV Rewriting", "Unlimited Job Matches", "Priority Support", "Advanced Analytics"]
      else ["Featured in Search Results", "3x More Visibility", "Highlighted Badge", "30-Day Boost Duration"])
  }

  /** Every price the modal can charge: 1900 or 2900 in dollars, 1600 times
      that in naira for the listed countries, premium always the cheaper. */
  lemma PriceTable(kind: PaymentType, userCountry: string)
    ensures var d := GetPaymentDetails(kind, userCountry);
      && (userCountry in AFRICAN_COUNTRIES ==> d.currency == "NGN" && d.amount == 1600 * BaseAmount(kind))
      && (userCountry !in AFRICAN_COUNTRIES ==> d.currency == "USD" && d.amount == BaseAmount(kind))
      && d.amount in {1900, 2900, 3040000, 4640000}
      && GetPaymentDetails(Premium, userCountry).amount < GetPaymentDetails(JobBoost, userCountry).amount
  {
  }

  /** The row both checkout handlers insert. */
  function PendingRow(userId: string, kind: PaymentType, jobId: Option<string>,
                      userCountry: string, provider: string, ref: string): (p: Payment)
    ensures p.userId == userId && p.provider == provider && p.kind == TypeColumn(kind)
    ensures p.amount == GetPaymentDetails(kind, userCountry).amount
    ensures p.description == GetPaymentDetails(kind, userCountry).description
    ensures p.status == PENDING && p.externalRef == Some(ref)
    ensures Truthy(jobId) ==> p.jobId == jobId
    ensures !Truthy(jobId) ==> p.jobId == None
  {
    var d := GetPaymentDetails(kind, userCountry);
    Payment(userId, d.amount, PENDING, TypeColumn(kind), d.description, provider, Some(ref),
            if Truthy(jobId) then jobId else None)
  }

  /** The store after a checkout whose insert succeeded under `id`: the row
      completed, then the purchase granted directly. */
  function CheckoutTables(t: Tables, userId: string, kind: PaymentType, jobId: Option<string>,
                          userCountry: string, provider: string, ref: string, id: string): (r: Tables)
    ensures r.payments.Keys == t.payments.Keys + {id}
    ensures r.users.Keys == t.users.Keys && r.jobs.Keys == t.jobs.Keys
  {
    var ps := t.payments[id := PendingRow(userId, kind, jobId, userCountry, provider, ref)];
    Tables(
      SetStatusWhereId(ps, id, COMPLETED),
      if kind == Premium then ActivateWhereId(t.users, userId, ref) else t.users,
      if kind == JobBoost && Truthy(jobId) then BoostWhereId(t.jobs, jobId.value) else t.jobs)
  }

  /** A checkout adds one completed row carrying the reference and grants
      the purchase: premium makes the buyer premium and active with the
      reference as subscription id; a boost marks the job boosted. */
  lemma CheckoutGrants(t: Tables, userId: string, kind: PaymentType, jobId: Option<string>,
                       userCountry: string, provider: string, ref: string, id: string)
    requires id !in t.payments
    ensures var t' := CheckoutTables(t, userId, kind, jobId, userCountry, provider, ref, id);
      && t'.payments.Keys == t.payments.Keys + {id}
      && (forall k :: k in t.payments ==> t'.payments[k] == t.payments[k])
      && t'.payments[id].status == COMPLETED && t'.payments[id].externalRef == Some(ref)
      && t'.payments[id].kind == TypeColumn(kind) && t'.payments[id].provider == provider
      && t'.users.Keys == t.users.Keys && t'.jobs.Keys == t.jobs.Keys
      && (kind == Premium && userId in t.users ==> t'.users[userId] == User(true, ACTIVE, Some(ref)))
      && (forall u :: u in t.users && u != userId ==> t'.users[u] == t.users[u])
      && (forall j :: j in t.jobs && !(kind == JobBoost && Truthy(jobId) && j == jobId.value) ==> t'.jobs[j] == t.jobs[j])
      && (kind == JobBoost ==> t'.users == t.users)
      && (kind == JobBoost && Truthy(jobId) && jobId.value in t.jobs ==> t'.jobs[jobId.value].boosted)
      && (kind == Premium || !Truthy(jobId) ==> t'.jobs == t.jobs)
  {
  }

  /** The provider's later success callback for a premium checkout grants
      nothing more: the row's type is `'premium'`, which the webhook does not
      fulfil, so users and jobs stay as the client left them. */
  lemma WebhookIgnoresPremiumRow(t: Tables, userId: string, jobId: Option<string>,
                                 userCountry: string, provider: string, ref: string, id: string)
    requires id !in t.payments && RefMatches(t.payments, ref) == {}
    ensures var t' := CheckoutTables(t, userId, Premium, jobId, userCountry, provider, ref, id);
      var o := Reconcile.Apply(t', Reconcile.Succeeded(ref));
      o.ok && o.tables.users == t'.users && o.tables.jobs == t'.jobs
  {
    var t' := CheckoutTables(t, userId, Premium, jobId, userCountry, provider, ref, id);
    CheckoutRowIsOnlyMatch(t, userId, Premium, jobId, userCountry, provider, ref, id);
    Reconcile.SucceededOtherKindFulfilsNothing(t', ref, id);
  }

  /** After a checkout with a fresh reference, its row is the only one
      carrying that reference. */
  lemma CheckoutRowIsOnlyMatch(t: Tables, userId: string, kind: PaymentType, jobId: Option<string>,
                               userCountry: string, provider: string, ref: string, id: string)
    requires id !in t.payments && RefMatches(t.payments, ref) == {}
    ensures var t' := CheckoutTables(t, userId, kind, jobId, userCountry, provider, ref, id);
      && RefMatches(t'.payments, ref) == {id}
      && t'.payments[id].kind == TypeColumn(kind)
      && t'.payments[id].jobId == (if Truthy(jobId) then jobId else None)
  {
  }

  /** For a boost, the webhook's own write repeats the client's: applying
      the success callback after the checkout leaves users and jobs as the
      checkout left them. */
  lemma WebhookAgreesOnBoost(t: Tables, userId: string, jobId: Option<string>,
                             userCountry: string, provider: string, ref: string, id: string)
    requires id !in t.payments && RefMatches(t.payments, ref) == {}
    ensures var t' := CheckoutTables(t, userId, JobBoost, jobId, userCountry, provider, ref, id);
      var o := Reconcile.Apply(t', Reconcile.Succeeded(ref));
      o.ok && o.tables.users == t'.users && o.tables.jobs == t'.jobs
  {
    var t' := CheckoutTables(t, userId, JobBoost, jobId, userCountry, provider, ref, id);
    CheckoutRowIsOnlyMatch(t, userId, JobBoost, jobId, userCountry, provider, ref, id);
    if Truthy(jobId) {
      Reconcile.SucceededBoostsJob(t', ref, id);
      var js := BoostWhereId(t.jobs, jobId.value);
      assert BoostWhereId(js, jobId.value) == js;
    } else {
      Reconcile.SucceededOtherKindFulfilsNothing(t', ref, id);
    }
  }

  const PAYMENT_FAILED_ALERT := "Payment failed. Please try again."

  /** The country the modal assumes once detection answered: the reported
      code, or `'US'` when it is absent or empty. */
  function DetectedCountry(code: Option<string>): (country: string)
    ensures country != ""
    ensures Truthy(code) ==> country == code.value
  {
    if Truthy(code) then code.value else "US"
  }

  /** When detection reports a listed country, the modal both switches to
      Paystack and prices in naira. */
  lemma DetectionAgreesWithPricing(code: Option<string>, kind: PaymentType)
    requires code.Some? && code.value in AFRICAN_COUNTRIES
    ensures GetPaymentDetails(kind, DetectedCountry(code)).currency == "NGN"
  {
  }

  /** The modal's state: the props it was opened with, and the provider,
      loading flag and country it holds. `successes` counts `onSuccess`
      calls and `alerts` records the alerts shown. */
  class PaymentModal {
    const kind: PaymentType
    const jobId: Option<string>
    var selectedProvider: string
    var loading: bool
    var userCountry: string
    var successes: nat
    var alerts: seq<string>

    constructor (kind: PaymentType, jobId: Option<string>)
      ensures this.kind == kind && this.jobId == jobId
      ensures selectedProvider == "stripe" && !loading && userCountry == "US"
      ensures successes == 0 && alerts == []
    {
      this.kind := kind;
      this.jobId := jobId;
      selectedProvider := "stripe";
      loading := false;
      userCountry := "US";
      successes := 0;
      alerts := [];
    }

    /** The country lookup answered with `code`. */
    method CountryDetected(code: Option<string>)
      modifies this
      ensures userCountry == DetectedCountry(code)
      ensures selectedProvider ==
        if code.Some? && code.value in AFRICAN_COUNTRIES then "paystack" else old(selectedProvider)
      ensures loading == old(loading) && successes == old(successes) && alerts == old(alerts)
    {
      userCountry := DetectedCountry(code);
      if code.Some? && code.value in AFRICAN_COUNTRIES {
        selectedProvider := "paystack";
      }
    }

    /** The shared body of both checkout handlers. `ref` is the generated
      reference, `id` the key the store assigns, and `insertRejected` a
      refusal of the insert by the store. */
    method Pay(db: Db, user: Option<string>, provider: string, ref: string, id: string, insertRejected: bool)
      modifies this, db
      ensures user.None? ==>
        db.Snapshot() == old(db.Snapshot()) && loading == old(loading)
        && successes == old(successes) && alerts == old(alerts)
      ensures user.Some? && !insertRejected && id !in old(db.payments) ==>
        && db.Snapshot() == CheckoutTables(old(db.Snapshot()), user.value, kind, jobId, old(userCountry), provider, ref, id)
        && successes == old(successes) + 1 && alerts == old(alerts)
      ensures user.Some? && (insertRejected || id in old(db.payments)) ==>
        && db.Snapshot() == old(db.Snapshot())
        && successes == old(successes) && alerts == old(alerts) + [PAYMENT_FAILED_ALERT]
      ensures user.Some? ==> !loading
      ensures selectedProvider == old(selectedProvider) && userCountry == old(userCountry)
    {
      if user.None? {
        return;
      }
      loading := true;
      var row := PendingRow(user.value, kind, jobId, userCountry, provider, ref);
      var inserted := false;
      if !insertRejected {
        inserted := db.InsertPayment(id, row);
      }
      if !inserted {
        alerts := alerts + [PAYMENT_FAILED_ALERT];
      } else {
        db.UpdateStatusWhereId(id, COMPLETED);
        if kind == Premium {
          db.ActivateUser(user.value, ref);
        } else if Truthy(jobId) {
          db.BoostJob(jobId.value);
        }
        successes := successes + 1;
      }
      loading := false;
    }

    method HandleStripePayment(db: Db, user: Option<string>, ref: string, id: string, insertRejected: bool)
      modifies this, db
      ensures user.None? ==>
        db.Snapshot() == old(db.Snapshot()) && loading == old(loading)
        && successes == old(successes) && alerts == old(alerts)
      ensures user.Some? && !insertRejected && id !in old(db.payments) ==>
        && db.Snapshot() == CheckoutTables(old(db.Snapshot()), user.value, kind, jobId, old(userCountry), "stripe", ref, id)
        && successes == old(successes) + 1 && alerts == old(alerts)
      ensures user.Some? && (insertRejected || id in old(db.payments)) ==>
        && db.Snapshot() == old(db.Snapshot())
        && successes == old(successes) && alerts == old(alerts) + [PAYMENT_FAILED_ALERT]
      ensures user.Some? ==> !loading
      ensures selectedProvider == old(selectedProvider) && userCountry == old(userCountry)
    {
      Pay(db, user, "stripe", ref, id, insertRejected);
    }

    method HandlePaystackPayment(db: Db, user: Option<string>, ref: string, id: string, insertRejected: bool)
      modifies this, db
      ensures user.None? ==>
        db.Snapshot() == old(db.Snapshot()) && loading == old(loading)
        && successes == old(successes) && alerts == old(alerts)
      ensures user.Some? && !insertRejected && id !in old(db.payments) ==>
        && db.Snapshot() == CheckoutTables(old(db.Snapshot()), user.value, kind, jobId, old(userCountry), "paystack", ref, id)
        && successes == old(successes) + 1 && alerts == old(alerts)
      ensures user.Some? && (insertRejected || id in old(db.payments)) ==>
        && db.Snapshot() == old(db.Snapshot())
        && successes == old(successes) && alerts == old(alerts) + [PAYMENT_FAILED_ALERT]
      ensures user.Some? ==> !loading
      ensures selectedProvider == old(selectedProvider) && userCountry == old(userCountry)
    {
      Pay(db, user, "paystack", ref, id, insertRejected);
    }

    /** `handlePayment()`: Stripe when selected, Paystack otherwise. */
    method HandlePayment(db: Db, user: Option<string>, ref: string, id: string, insertRejected: bool)
      modifies this, db
      ensures user.None? ==>
        db.Snapshot() == old(db.Snapshot()) && loading == old(loading)
        && successes == old(successes) && alerts == old(alerts)
      ensures user.Some? && !insertRejected && id !in old(db.payments) ==>
        && db.Snapshot() == CheckoutTables(old(db.Snapshot()), user.value, kind, jobId, old(userCountry),
                                           if old(selectedProvider) == "stripe" then "stripe" else "paystack", ref, id)
        && successes == old(successes) + 1 && alerts == old(alerts)
      ensures user.Some? && (insertRejected || id in old(db.payments)) ==>
        && db.Snapshot() == old(db.Snapshot())
        && successes == old(successes) && alerts == old(alerts) + [PAYMENT_FAILED_ALERT]
      ensures user.Some? ==> !loading
      ensures selectedProvider == old(selectedProvider) && userCountry == old(userCountry)
    {
      if selectedProvider == "stripe" {
        HandleStripePayment(db, user, ref, id, insertRejected);
      } else {
        HandlePaystackPayment(db, user, ref, id, insertRejected);
      }
    }
  }
}
