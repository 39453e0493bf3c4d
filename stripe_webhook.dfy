/** The Stripe webhook function: answers the CORS preflight, parses the body
    without checking its signature, dispatches on `event.type` and answers
    `{"received":true}` or, when anything throws, 400. */
module StripeWebhook {
  import opened Store
  import opened Reconcile

  const SUCCEEDED := "payment_intent.succeeded"
  const PAYMENT_FAILED := "payment_intent.payment_failed"
  const SUBSCRIPTION_DELETED := "customer.subscription.deleted"

  const RECEIVED := Response(200, "{\"received\":true}")

  predicate Recognised(kind: string) {
    kind == SUCCEEDED || kind == PAYMENT_FAILED || kind == SUBSCRIPTION_DELETED
  }

  /** The `switch (event.type)`, with `event.data.object.id` as the
      reference; a recognised event without its data object throws. */
  function EventOf(body: Body): (e: Event)
    ensures e.Malformed? <==> body.NotJson? || (Recognised(body.kind) && body.reference.None?)
    ensures e.Unhandled? <==> body.Envelope? && !Recognised(body.kind)
    ensures e.Succeeded? || e.Failed? || e.SubscriptionDeleted? ==>
      body.Envelope? && body.reference.Some?
    ensures e.Succeeded? ==> e.ref == body.reference.value && body.kind == SUCCEEDED
    ensures e.Failed? ==> e.ref == body.reference.value && body.kind == PAYMENT_FAILED
    ensures e.SubscriptionDeleted? ==> e.subscriptionId == body.reference.value && body.kind == SUBSCRIPTION_DELETED
  {
    match body
    case NotJson => Malformed
    case Envelope(kind, reference) =>
      if !Recognised(kind) then Unhandled(kind)
      else if reference.None? then Malformed
      else if kind == SUCCEEDED then Succeeded(reference.value)
      else if kind == PAYMENT_FAILED then Failed(reference.value)
      else SubscriptionDeleted(reference.value)
  }

  /** The store after serving `req`, and the response sent. */
  ghost function Serve(t: Tables, req: Request): (r: (Tables, Response))
    ensures req.verb == "OPTIONS" ==> r == (t, PREFLIGHT_OK)
    ensures r.1 == PREFLIGHT_OK || r.1 == RECEIVED || r.1 == HANDLER_FAILED
  {
    ServeEvent(t, req.verb, EventOf(req.body), RECEIVED)
  }

  method Handle(db: Db, req: Request) returns (resp: Response)
    modifies db
    ensures (db.Snapshot(), resp) == Serve(old(db.Snapshot()), req)
  {
    if req.verb == "OPTIONS" {
      return PREFLIGHT_OK;
    }
    var ok := Dispatch(db, EventOf(req.body));
    resp := if ok then RECEIVED else HANDLER_FAILED;
  }

  /** The handler fails exactly when the body is not JSON, a recognised
      event lacks its data object, or a succeeded intent's id does not
      single out one payment; every other request is answered 200. */
  lemma RejectedExactly(t: Tables, req: Request)
    ensures Serve(t, req).1.status == 400 <==>
      && req.verb != "OPTIONS"
      && (|| req.body.NotJson?
          || (Recognised(req.body.kind) && req.body.reference.None?)
          || (req.body.kind == SUCCEEDED && req.body.reference.Some?
              && |RefMatches(t.payments, req.body.reference.value)| != 1))
    ensures Serve(t, req).1.status == 400 || Serve(t, req).1.status == 200
  {
    if req.verb != "OPTIONS" && req.body.Envelope? && req.body.kind == SUCCEEDED && req.body.reference.Some? {
      var ref := req.body.reference.value;
      var ps := SetStatusWhereRef(t.payments, ref, COMPLETED);
      assert RefMatches(ps, ref) == RefMatches(t.payments, ref);
    }
  }

  /** A body that is not JSON is answered 400 and writes nothing. */
  lemma UnparsableRejected(t: Tables, verb: string)
    requires verb != "OPTIONS"
    ensures Serve(t, Request(verb, NotJson)) == (t, HANDLER_FAILED)
  {
  }

  /** An event of any other type is acknowledged and writes nothing. */
  lemma UnknownTypeAcknowledged(t: Tables, verb: string, kind: string, reference: Option<string>)
    requires verb != "OPTIONS" && !Recognised(kind)
    ensures Serve(t, Request(verb, Envelope(kind, reference))) == (t, RECEIVED)
  {
  }
}
