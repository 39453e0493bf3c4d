/** The three tables the payment code reads and writes (`payments`, `users`,
    `jobs`), keyed by row id, and the handful of query shapes the code uses:
    `update(...).eq(column, value)`, which updates every matching row, and
    `select().eq(column, value).single()`, which yields a row only when
    exactly one row matches. */
module Store {

  datatype Option<T> = None | Some(value: T)

  // Column values written or tested by the code.
  const PENDING := "pending"
  const COMPLETED := "completed"
  const FAILED := "failed"
  const SUBSCRIPTION := "subscription"
  const JOB_BOOST := "job_boost"
  const PREMIUM := "premium"
  const ACTIVE := "active"
  const CANCELLED := "cancelled"

  /** A `payments` row. `externalRef` is the `stripe_payment_id` column,
      through which both providers' callbacks find the row; `kind` is the
      `type` column, an open string. */
  datatype Payment = Payment(
    userId: string,
    amount: int,
    status: string,
    kind: string,
    description: string,
    provider: string,
    externalRef: Option<string>,
    jobId: Option<string>)

  /** The `users` columns the payment code touches. */
  datatype User = User(premium: bool, subscriptionStatus: string, subscriptionId: Option<string>)

  /** A `jobs` row; `requirements` may be null in a fetched row. */
  datatype Job = Job(
    employerId: string,
    title: string,
    description: string,
    requirements: Option<seq<string>>,
    salaryRange: string,
    location: string,
    boosted: bool)

  /** JavaScript truthiness of a nullable text value: null and '' are false. */
  predicate Truthy(o: Option<string>) {
    o.Some? && o.value != ""
  }

  /** The message a `catch` block shows: the thrown Error's message, or the
      fallback text when what was thrown is not an Error. */
  function ErrorText(thrown: Option<string>, fallback: string): string {
    if thrown.Some? then thrown.value else fallback
  }

  datatype Tables = Tables(
    payments: map<string, Payment>,
    users: map<string, User>,
    jobs: map<string, Job>)

  /** Ids of the payments whose `stripe_payment_id` equals `ref`. */
  function RefMatches(ps: map<string, Payment>, ref: string): set<string> {
    set k | k in ps && ps[k].externalRef == Some(ref)
  }

  /** `update payments set status = status where stripe_payment_id = ref`. */
  function SetStatusWhereRef(ps: map<string, Payment>, ref: string, status: string): (r: map<string, Payment>)
    ensures r.Keys == ps.Keys
    ensures RefMatches(r, ref) == RefMatches(ps, ref)
  {
    map k | k in ps :: if ps[k].externalRef == Some(ref) then ps[k].(status := status) else ps[k]
  }

  /** `update payments set status = status where id = id`. */
  function SetStatusWhereId(ps: map<string, Payment>, id: string, status: string): (r: map<string, Payment>)
    ensures r.Keys == ps.Keys
  {
    if id in ps then ps[id := ps[id].(status := status)] else ps
  }

  /** `update users set premium = true, subscription_status = 'active',
      subscription_id = subscriptionId where id = id`. */
  function ActivateWhereId(us: map<string, User>, id: string, subscriptionId: string): (r: map<string, User>)
    ensures r.Keys == us.Keys
  {
    if id in us then us[id := User(true, ACTIVE, Some(subscriptionId))] else us
  }

  /** `update users set premium = false, subscription_status = 'cancelled'
      where subscription_id = subscriptionId`. */
  function CancelWhereSubscription(us: map<string, User>, subscriptionId: string): (r: map<string, User>)
    ensures r.Keys == us.Keys
  {
    map k | k in us ::
      if us[k].subscriptionId == Some(subscriptionId)
      then us[k].(premium := false, subscriptionStatus := CANCELLED)
      else us[k]
  }

  /** `update jobs set boosted = true where id = id`. */
  function BoostWhereId(js: map<string, Job>, id: string): (r: map<string, Job>)
    ensures r.Keys == js.Keys
  {
    if id in js then js[id := js[id].(boosted := true)] else js
  }

  lemma SingletonMember<T>(s: set<T>, a: T, b: T)
    requires |s| == 1 && a in s && b in s
    ensures a == b
  {
    assert |s - {a}| == 0;
  }

  /** `select * from payments where stripe_payment_id = ref`, then
      `.single()`: the row when exactly one matches, otherwise an error. */
  ghost function SingleWhereRef(ps: map<string, Payment>, ref: string): (r: Option<Payment>)
    ensures r.Some? <==> |RefMatches(ps, ref)| == 1
    ensures r.Some? ==> r.value in ps.Values && r.value.externalRef == Some(ref)
  {
    var ks := RefMatches(ps, ref);
    if |ks| == 1 then
      var k :| k in ks;
      Some(ps[k])
    else
      None
  }

  /** The hosted database, as the three tables it holds. */
  class Db {
    var payments: map<string, Payment>
    var users: map<string, User>
    var jobs: map<string, Job>

    constructor (t: Tables)
      ensures Snapshot() == t
    {
      payments, users, jobs := t.payments, t.users, t.jobs;
    }

    function Snapshot(): Tables
      reads this
    {
      Tables(payments, users, jobs)
    }

    method UpdateStatusWhereRef(ref: string, status: string)
      modifies this
      ensures payments == SetStatusWhereRef(old(payments), ref, status)
      ensures users == old(users) && jobs == old(jobs)
    {
      payments := SetStatusWhereRef(payments, ref, status);
    }

    method UpdateStatusWhereId(id: string, status: string)
      modifies this
      ensures payments == SetStatusWhereId(old(payments), id, status)
      ensures users == old(users) && jobs == old(jobs)
    {
      payments := SetStatusWhereId(payments, id, status);
    }

    method SelectSingleWhereRef(ref: string) returns (row: Option<Payment>)
      ensures row == SingleWhereRef(payments, ref)
    {
      var ks := RefMatches(payments, ref);
      if |ks| == 1 {
        var k :| k in ks;
        ghost var k' :| k' in ks && SingleWhereRef(payments, ref) == Some(payments[k']);
        SingletonMember(ks, k, k');
        row := Some(payments[k]);
      } else {
        row := None;
      }
    }

    /** `insert into payments`: the store assigns `id`; a clash with an
        existing primary key is an insert error. */
    method InsertPayment(id: string, row: Payment) returns (ok: bool)
      modifies this
      ensures ok <==> id !in old(payments)
      ensures payments == if ok then old(payments)[id := row] else old(payments)
      ensures users == old(users) && jobs == old(jobs)
    {
      ok := id !in payments;
      if ok {
        payments := payments[id := row];
      }
    }

    method ActivateUser(id: string, subscriptionId: string)
      modifies this
      ensures users == ActivateWhereId(old(users), id, subscriptionId)
      ensures payments == old(payments) && jobs == old(jobs)
    {
      users := ActivateWhereId(users, id, subscriptionId);
    }

    method CancelSubscriptions(subscriptionId: string)
      modifies this
      ensures users == CancelWhereSubscription(old(users), subscriptionId)
      ensures payments == old(payments) && jobs == old(jobs)
    {
      users := CancelWhereSubscription(users, subscriptionId);
    }

    method BoostJob(id: string)
      modifies this
      ensures jobs == BoostWhereId(old(jobs), id)
      ensures payments == old(payments) && users == old(users)
    {
      jobs := BoostWhereId(jobs, id);
    }
  }
}
