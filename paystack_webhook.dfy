/** The Paystack webhook function: the same shape as the Stripe one, keyed
    on `event.event`, reading `event.data.reference`, answering
    `{"status":"success"}`, and with no subscription-cancellation case. */
module PaystackWebhook {
  import opened Store
  import opened Reconcile
  import StripeWebhook

  const CHARGE_SUCCESS := "charge.success"
  const CHARGE_FAILED := "charge.failed"

  const SUCCESS := Response(200, "{\"status\":\"success\"}")

  predicate Recognised(kind: string) {
    kind == CHARGE_SUCCESS || kind == CHARGE_FAILED
  }

  /** The `switch (event.event)`, with `event.data.reference` as the
      reference; a recognised event without its data throws. */
  function EventOf(body: Body): (e: Event)
    ensures !e.SubscriptionDeleted?
    ensures e.Malformed? <==> body.NotJson? || (Recognised(body.kind) && body.reference.None?)
    ensures e.Unhandled? <==> body.Envelope? && !Recognised(body.kind)
    ensures e.Succeeded? ==> body.Envelope? && body.kind == CHARGE_SUCCESS && body.reference == Some(e.ref)
    ensures e.Failed? ==> body.Envelope? && body.kind == CHARGE_FAILED && body.reference == Some(e.ref)
  {
    match body
    case NotJson => Malformed
    case Envelope(kind, reference) =>
      if !Recognised(kind) then Unhandled(kind)
      else if reference.None? then Malformed
      else if kind == CHARGE_SUCCESS then Succeeded(reference.value)
      else Failed(reference.value)
  }

  /** The store after serving `req`, and the response sent. */
  ghost function Serve(t: Tables, req: Request): (r: (Tables, Response))
    ensures req.verb == "OPTIONS" ==> r == (t, PREFLIGHT_OK)
    ensures r.1 == PREFLIGHT_OK || r.1 == SUCCESS || r.1 == HANDLER_FAILED
  {
    ServeEvent(t, req.verb, EventOf(req.body), SUCCESS)
  }

  method Handle(db: Db, req: Request) returns (resp: Response)
    modifies db
    ensures (db.Snapshot(), resp) == Serve(old(db.Snapshot()), req)
  {
    if req.verb == "OPTIONS" {
      return PREFLIGHT_OK;
    }
    var ok := Dispatch(db, EventOf(req.body));
    resp := if ok then SUCCESS else HANDLER_FAILED;
  }

  /** No Paystack delivery ever takes premium away from a user. */
  lemma NeverRevokesPremium(t: Tables, req: Request, u: string)
    requires u in t.users && t.users[u].premium
    ensures u in Serve(t, req).0.users && Serve(t, req).0.users[u].premium
  {
    if req.verb != "OPTIONS" {
      var e := EventOf(req.body);
      ApplyKeepsRows(t, e);
      if e.Succeeded? {
        var ps := SetStatusWhereRef(t.payments, e.ref, COMPLETED);
        var row := SingleWhereRef(ps, e.ref);
        if row.Some? && row.value.kind == SUBSCRIPTION {
          assert Serve(t, req).0.users == ActivateWhereId(t.users, row.value.userId, e.ref);
        }
      }
    }
  }

  /** Both providers correlate through the same column: a Paystack success
      for a reference writes exactly what a Stripe success for that
      reference writes. */
  lemma SharedReferenceSpace(t: Tables, verb: string, ref: string)
    requires verb != "OPTIONS"
    ensures Serve(t, Request(verb, Envelope(CHARGE_SUCCESS, Some(ref)))).0
         == StripeWebhook.Serve(t, Request(verb, Envelope(StripeWebhook.SUCCEEDED, Some(ref)))).0
  {
  }
}
