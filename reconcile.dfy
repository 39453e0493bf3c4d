/** What a webhook delivery does to the store once its body has been
    classified, shared by the Stripe and the Paystack handlers: the same
    sequence of writes, with no terminal-status guard, correlating through
    `stripe_payment_id` and fulfilling only `'subscription'` and
    `'job_boost'` payments. */
module Reconcile {
  import opened Store

  /** A request as a webhook function receives it: the HTTP method and what
      `JSON.parse` makes of the text body. */
  datatype Request = Request(verb: string, body: Body)

  /** The parsed body, reduced to what the handlers read: the event name and
      the reference inside the event's data (`None` when the data object the
      handler dereferences is absent, which throws a `TypeError`). */
  datatype Body = NotJson | Envelope(kind: string, reference: Option<string>)

  /** An HTTP response: status code and JSON text. */
  datatype Response = Response(status: int, body: string)

  const PREFLIGHT_OK := Response(200, "ok")
  const HANDLER_FAILED := Response(400, "{\"error\":\"Webhook handler failed\"}")

  /** A delivery as the handlers see it after parsing. */
  datatype Event =
    | Succeeded(ref: string)
    | Failed(ref: string)
    | SubscriptionDeleted(subscriptionId: string)
    | Unhandled(kind: string)
    | Malformed

  /** The store after a delivery, and whether the handler reached its
      success response. */
  datatype Outcome = Outcome(tables: Tables, ok: bool)

  /** The write that follows a completed charge, chosen by the fetched row's
      `type`: activate its user, boost its job, or nothing. */
  function Fulfil(t: Tables, p: Payment, ref: string): (r: Tables)
    ensures r.payments == t.payments
    ensures p.kind != SUBSCRIPTION ==> r.users == t.users
    ensures !(p.kind == JOB_BOOST && Truthy(p.jobId)) ==> r.jobs == t.jobs
  {
    if p.kind == SUBSCRIPTION then
      t.(users := ActivateWhereId(t.users, p.userId, ref))
    else if p.kind == JOB_BOOST && Truthy(p.jobId) then
      t.(jobs := BoostWhereId(t.jobs, p.jobId.value))
    else
      t
  }

  /** The store after one delivery of `e`, and the handler's verdict: it
      fails exactly on a malformed event or a success whose reference does
      not single out one payment, and a failed delivery writes no user and
      no job. */
  ghost function Apply(t: Tables, e: Event): (r: Outcome)
    ensures r.ok <==> !e.Malformed? && (e.Succeeded? ==> |RefMatches(t.payments, e.ref)| == 1)
    ensures !r.ok ==> r.tables.users == t.users && r.tables.jobs == t.jobs
  {
    match e
    case Succeeded(ref) =>
      var t1 := t.(payments := SetStatusWhereRef(t.payments, ref, COMPLETED));
      var row := SingleWhereRef(t1.payments, ref);
      if row.None? then Outcome(t1, false) else Outcome(Fulfil(t1, row.value, ref), true)
    case Failed(ref) =>
      Outcome(t.(payments := SetStatusWhereRef(t.payments, ref, FAILED)), true)
    case SubscriptionDeleted(id) =>
      Outcome(t.(users := CancelWhereSubscription(t.users, id)), true)
    case Unhandled(_) =>
      Outcome(t, true)
    case Malformed =>
      Outcome(t, false)
  }

  /** What a webhook function leaves in the store and sends back for a
      request with HTTP method `verb` whose body classifies as `e`: the
      preflight is answered without touching the store; anything else is
      applied and answered with `ack`, or with the 400 failure exactly when
      the delivery failed, in which case no user and no job was written. */
  ghost function ServeEvent(t: Tables, verb: string, e: Event, ack: Response): (r: (Tables, Response))
    requires ack != HANDLER_FAILED
    ensures verb == "OPTIONS" ==> r == (t, PREFLIGHT_OK)
    ensures r.1 == PREFLIGHT_OK || r.1 == ack || r.1 == HANDLER_FAILED
    ensures r.1 == HANDLER_FAILED <==>
      verb != "OPTIONS" && (e.Malformed? || (e.Succeeded? && |RefMatches(t.payments, e.ref)| != 1))
    ensures r.1 == HANDLER_FAILED ==> r.0.users == t.users && r.0.jobs == t.jobs
  {
    if verb == "OPTIONS" then
      (t, PREFLIGHT_OK)
    else
      var o := Apply(t, e);
      (o.tables, if o.ok then ack else HANDLER_FAILED)
  }

  /** The body of a handler's `try` block after parsing: the `switch` and the
      awaited writes of the case it selects. */
  method Dispatch(db: Db, e: Event) returns (ok: bool)
    modifies db
    ensures Outcome(db.Snapshot(), ok) == Apply(old(db.Snapshot()), e)
  {
    match e
    case Succeeded(ref) =>
      db.UpdateStatusWhereRef(ref, COMPLETED);
      var row := db.SelectSingleWhereRef(ref);
      if row.None? {
        return false;
      }
      var p := row.value;
      if p.kind == SUBSCRIPTION {
        db.ActivateUser(p.userId, ref);
      } else if p.kind == JOB_BOOST && Truthy(p.jobId) {
        db.BoostJob(p.jobId.value);
      }
      ok := true;
    case Failed(ref) =>
      db.UpdateStatusWhereRef(ref, FAILED);
      ok := true;
    case SubscriptionDeleted(id) =>
      db.CancelSubscriptions(id);
      ok := true;
    case Unhandled(_) =>
      ok := true;
    case Malformed =>
      ok := false;
  }

  /** A successful charge marks every payment carrying the reference
      completed, whatever its previous status, and no other payment. */
  lemma SucceededCompletesMatches(t: Tables, ref: string)
    ensures var ps := Apply(t, Succeeded(ref)).tables.payments;
      && ps.Keys == t.payments.Keys
      && (forall k :: k in t.payments && t.payments[k].externalRef == Some(ref) ==>
            ps[k] == t.payments[k].(status := COMPLETED))
      && (forall k :: k in t.payments && t.payments[k].externalRef != Some(ref) ==>
            ps[k] == t.payments[k])
  {
  }

  /** When exactly one payment carries the reference and it is a
      subscription, its user becomes premium and active with the reference
      as subscription id; nothing else among users or jobs changes. */
  lemma SucceededActivatesSubscriber(t: Tables, ref: string, id: string)
    requires RefMatches(t.payments, ref) == {id}
    requires t.payments[id].kind == SUBSCRIPTION
    ensures var o := Apply(t, Succeeded(ref));
      && o.ok
      && o.tables.jobs == t.jobs
      && o.tables.users == ActivateWhereId(t.users, t.payments[id].userId, ref)
      && (t.payments[id].userId in t.users ==>
            o.tables.users[t.payments[id].userId] == User(true, ACTIVE, Some(ref)))
  {
    var ps := SetStatusWhereRef(t.payments, ref, COMPLETED);
    assert RefMatches(ps, ref) == {id};
    assert ps[id].userId == t.payments[id].userId && ps[id].kind == SUBSCRIPTION;
    var p := SingleWhereRef(ps, ref).value;
    assert p == ps[id];
  }

  /** When exactly one payment carries the reference and it is a job boost
      with a job id, that job becomes boosted and users are untouched. */
  lemma SucceededBoostsJob(t: Tables, ref: string, id: string)
    requires RefMatches(t.payments, ref) == {id}
    requires t.payments[id].kind == JOB_BOOST && Truthy(t.payments[id].jobId)
    ensures var o := Apply(t, Succeeded(ref));
      && o.ok
      && o.tables.users == t.users
      && o.tables.jobs == BoostWhereId(t.jobs, t.payments[id].jobId.value)
      && (t.payments[id].jobId.value in t.jobs ==> o.tables.jobs[t.payments[id].jobId.value].boosted)
  {
    var ps := SetStatusWhereRef(t.payments, ref, COMPLETED);
    assert RefMatches(ps, ref) == {id};
    assert ps[id] == t.payments[id].(status := COMPLETED);
    var p := SingleWhereRef(ps, ref).value;
    assert p == ps[id];
  }

  /** A payment of any other type, such as the `'premium'` rows the client
      inserts, or a job boost without a job id, changes no user and no job,
      and the delivery is still acknowledged. */
  lemma SucceededOtherKindFulfilsNothing(t: Tables, ref: string, id: string)
    requires RefMatches(t.payments, ref) == {id}
    requires t.payments[id].kind != SUBSCRIPTION
    requires t.payments[id].kind != JOB_BOOST || !Truthy(t.payments[id].jobId)
    ensures var o := Apply(t, Succeeded(ref));
      o.ok && o.tables.users == t.users && o.tables.jobs == t.jobs
  {
    var ps := SetStatusWhereRef(t.payments, ref, COMPLETED);
    assert RefMatches(ps, ref) == {id};
    assert ps[id] == t.payments[id].(status := COMPLETED);
    var p := SingleWhereRef(ps, ref).value;
    assert p == ps[id];
  }

  /** An unknown or ambiguous reference: the matching rows (if any) are still
      marked completed, but the handler fails and writes no user or job. */
  lemma SucceededUnmatchedFails(t: Tables, ref: string)
    requires |RefMatches(t.payments, ref)| != 1
    ensures var o := Apply(t, Succeeded(ref));
      !o.ok && o.tables.users == t.users && o.tables.jobs == t.jobs
  {
  }

  /** A failed charge marks the matching payments failed and touches no
      other payment, no user and no job. */
  lemma FailedMarksMatchesOnly(t: Tables, ref: string)
    ensures var o := Apply(t, Failed(ref));
      && o.ok
      && o.tables.users == t.users && o.tables.jobs == t.jobs
      && o.tables.payments.Keys == t.payments.Keys
      && (forall k :: k in t.payments ==>
            o.tables.payments[k] ==
              if t.payments[k].externalRef == Some(ref) then t.payments[k].(status := FAILED)
              else t.payments[k])
  {
  }

  /** There is no terminal-status guard: a failure delivered after a success
      turns a completed payment into a failed one. */
  lemma FailedOverwritesCompleted(t: Tables, ref: string, id: string)
    requires id in t.payments && t.payments[id].externalRef == Some(ref)
    ensures var t1 := Apply(t, Succeeded(ref)).tables;
      && t1.payments[id].status == COMPLETED
      && Apply(t1, Failed(ref)).tables.payments[id].status == FAILED
  {
    var t1 := Apply(t, Succeeded(ref)).tables;
    SucceededCompletesMatches(t, ref);
    assert t1.payments[id].externalRef == Some(ref);
  }

  /** A cancellation revokes premium on every user holding the subscription
      id, touches nothing else, and is acknowledged even when no user holds
      it. */
  lemma CancellationRevokesHolders(t: Tables, id: string)
    ensures var o := Apply(t, SubscriptionDeleted(id));
      && o.ok
      && o.tables.payments == t.payments && o.tables.jobs == t.jobs
      && o.tables.users.Keys == t.users.Keys
      && (forall u :: u in t.users && t.users[u].subscriptionId == Some(id) ==>
            !o.tables.users[u].premium && o.tables.users[u].subscriptionStatus == CANCELLED)
      && (forall u :: u in t.users && t.users[u].subscriptionId != Some(id) ==>
            o.tables.users[u] == t.users[u])
  {
  }

  /** An unrecognised event is acknowledged and changes nothing; a malformed
      one is rejected and changes nothing. */
  lemma IgnoredEventsChangeNothing(t: Tables, e: Event)
    requires e.Unhandled? || e.Malformed?
    ensures Apply(t, e) == Outcome(t, e.Unhandled?)
  {
  }

  /** No delivery creates or deletes a row in any table. */
  lemma ApplyKeepsRows(t: Tables, e: Event)
    ensures var t' := Apply(t, e).tables;
      && t'.payments.Keys == t.payments.Keys
      && t'.users.Keys == t.users.Keys
      && t'.jobs.Keys == t.jobs.Keys
  {
  }

  /** A delivery only ever moves a payment's status to `'completed'` or to
      `'failed'`, never back to `'pending'` or anywhere else. */
  lemma StatusMovesOnlyToTerminal(t: Tables, e: Event, k: string)
    requires k in t.payments
    ensures var s := Apply(t, e).tables.payments[k].status;
      s == t.payments[k].status || s == COMPLETED || s == FAILED
  {
  }

  lemma SetStatusWhereRefTwice(ps: map<string, Payment>, ref: string, status: string)
    ensures SetStatusWhereRef(SetStatusWhereRef(ps, ref, status), ref, status) == SetStatusWhereRef(ps, ref, status)
  {
  }

  lemma FulfilTwice(t: Tables, p: Payment, ref: string)
    ensures Fulfil(Fulfil(t, p, ref), p, ref) == Fulfil(t, p, ref)
  {
    if p.kind == SUBSCRIPTION {
      var us := ActivateWhereId(t.users, p.userId, ref);
      assert ActivateWhereId(us, p.userId, ref) == us;
    } else if p.kind == JOB_BOOST && Truthy(p.jobId) {
      var js := BoostWhereId(t.jobs, p.jobId.value);
      assert BoostWhereId(js, p.jobId.value) == js;
    }
  }

  /** Replaying any event leaves the store, and the verdict, as after the
      first delivery: every write assigns constants. */
  lemma ReplayIsIdempotent(t: Tables, e: Event)
    ensures Apply(Apply(t, e).tables, e) == Apply(t, e)
  {
    match e
    case Succeeded(ref) =>
      var ps := SetStatusWhereRef(t.payments, ref, COMPLETED);
      var t1 := t.(payments := ps);
      SetStatusWhereRefTwice(t.payments, ref, COMPLETED);
      var row := SingleWhereRef(ps, ref);
      if row.Some? {
        var t2 := Fulfil(t1, row.value, ref);
        assert t2.payments == ps;
        assert t2.(payments := SetStatusWhereRef(t2.payments, ref, COMPLETED)) == t2;
        FulfilTwice(t1, row.value, ref);
      }
    case Failed(ref) =>
      SetStatusWhereRefTwice(t.payments, ref, FAILED);
    case SubscriptionDeleted(id) =>
      var us := CancelWhereSubscription(t.users, id);
      assert CancelWhereSubscription(us, id) == us;
    case Unhandled(_) =>
    case Malformed =>
  }

  /** Both providers retry deliveries: serving the same request again leaves
      the store and the response as after the first time. */
  lemma RedeliveryIsIdempotent(t: Tables, verb: string, e: Event, ack: Response)
    requires ack != HANDLER_FAILED
    ensures ServeEvent(ServeEvent(t, verb, e, ack).0, verb, e, ack) == ServeEvent(t, verb, e, ack)
  {
    if verb != "OPTIONS" {
      ReplayIsIdempotent(t, e);
    }
  }
}
