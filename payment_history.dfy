/** The payment-history page's derived values: the summary card's three
    figures, the status icon and badge colours, the "subscription active"
    banner and the shortened reference shown under each payment. */
module PaymentHistory {
  import opened Store
  import Checkout

  /** `payments.filter(p => p.status === 'completed')`. */
  function Completed(ps: seq<Payment>): (r: seq<Payment>)
    ensures |r| <= |ps|
    ensures forall i :: 0 <= i < |r| ==> r[i].status == COMPLETED && r[i] in ps
    ensures forall i :: 0 <= i < |ps| && ps[i].status == COMPLETED ==> ps[i] in r
  {
    if ps == [] then []
    else (if ps[0].status == COMPLETED then [ps[0]] else []) + Completed(ps[1..])
  }

  /** `.reduce((sum, p) => sum + p.amount, 0)`. */
  function Sum(ps: seq<Payment>): int {
    if ps == [] then 0 else ps[0].amount + Sum(ps[1..])
  }

  /** Total Spent, in the smallest currency unit: the amounts of the
      completed payments added up. */
  function TotalSpent(ps: seq<Payment>): (total: int)
    ensures (forall i :: 0 <= i < |ps| ==> ps[i].status != COMPLETED) ==> total == 0
  {
    Sum(Completed(ps))
  }

  /** Successful Payments: how many payments are completed. */
  function SuccessfulCount(ps: seq<Payment>): (n: nat)
    ensures n <= |ps|
  {
    |Completed(ps)|
  }

  /** What a payment adds to Total Spent: its amount when completed,
      nothing otherwise. */
  function Contribution(p: Payment): int {
    if p.status == COMPLETED then p.amount else 0
  }

  lemma {:induction false} CompletedAppend(a: seq<Payment>, b: seq<Payment>)
    ensures Completed(a + b) == Completed(a) + Completed(b)
    decreases |a|
  {
    if a == [] {
      assert a + b == b;
    } else {
      assert (a + b)[1..] == a[1..] + b;
      CompletedAppend(a[1..], b);
    }
  }

  lemma {:induction false} SumAppend(a: seq<Payment>, b: seq<Payment>)
    ensures Sum(a + b) == Sum(a) + Sum(b)
    decreases |a|
  {
    if a == [] {
      assert a + b == b;
    } else {
      assert (a + b)[1..] == a[1..] + b;
      SumAppend(a[1..], b);
    }
  }

  /** Total Spent is the payment-by-payment sum of contributions: a pending
      or failed payment, or one with any other status, adds nothing. */
  lemma {:induction false} TotalSpentByPayment(ps: seq<Payment>)
    ensures ps == [] ==> TotalSpent(ps) == 0
    ensures ps != [] ==> TotalSpent(ps) == Contribution(ps[0]) + TotalSpent(ps[1..])
  {
    if ps != [] {
      assert ps == [ps[0]] + ps[1..];
      CompletedAppend([ps[0]], ps[1..]);
      SumAppend(Completed([ps[0]]), Completed(ps[1..]));
    }
  }

  /** The summary over two lists of payments is the sum of the summaries. */
  lemma SummaryAppend(a: seq<Payment>, b: seq<Payment>)
    ensures TotalSpent(a + b) == TotalSpent(a) + TotalSpent(b)
    ensures SuccessfulCount(a + b) == SuccessfulCount(a) + SuccessfulCount(b)
    ensures |a + b| == |a| + |b|
  {
    CompletedAppend(a, b);
    SumAppend(Completed(a), Completed(b));
  }

  /** A payment that is not completed changes neither Total Spent nor the
      Successful Payments count, only the transaction count. */
  lemma UncompletedCountsOnlyAsTransaction(ps: seq<Payment>, p: Payment)
    requires p.status != COMPLETED
    ensures TotalSpent(ps + [p]) == TotalSpent(ps)
    ensures SuccessfulCount(ps + [p]) == SuccessfulCount(ps)
    ensures |ps + [p]| == |ps| + 1
  {
    SummaryAppend(ps, [p]);
  }

  /** With non-negative amounts, Total Spent is non-negative and no
      smaller than any single completed amount. */
  lemma {:induction false} TotalSpentBounds(ps: seq<Payment>)
    requires forall i :: 0 <= i < |ps| ==> ps[i].amount >= 0
    ensures TotalSpent(ps) >= 0
    ensures forall i :: 0 <= i < |ps| && ps[i].status == COMPLETED ==> ps[i].amount <= TotalSpent(ps)
    decreases |ps|
  {
    if ps != [] {
      TotalSpentByPayment(ps);
      TotalSpentBounds(ps[1..]);
      forall i | 0 <= i < |ps| && ps[i].status == COMPLETED
        ensures ps[i].amount <= TotalSpent(ps)
      {
        if i > 0 { assert ps[i] == ps[1..][i - 1]; }
      }
    }
  }

  /** Every payment completed exactly when Successful Payments equals Total
      Transactions. */
  lemma {:induction false} AllSuccessful(ps: seq<Payment>)
    ensures SuccessfulCount(ps) == |ps| <==> forall i :: 0 <= i < |ps| ==> ps[i].status == COMPLETED
    decreases |ps|
  {
    if ps != [] {
      AllSuccessful(ps[1..]);
      assert SuccessfulCount(ps) == (if ps[0].status == COMPLETED then 1 else 0) + SuccessfulCount(ps[1..]);
      if forall i :: 0 <= i < |ps| ==> ps[i].status == COMPLETED {
        assert forall i :: 0 <= i < |ps[1..]| ==> ps[1..][i].status == COMPLETED by {
          forall i | 0 <= i < |ps[1..]| ensures ps[1..][i].status == COMPLETED {
            assert ps[1..][i] == ps[i + 1];
          }
        }
      } else {
        var j :| 0 <= j < |ps| && ps[j].status != COMPLETED;
        if j > 0 { assert ps[1..][j - 1] == ps[j]; }
      }
    }
  }

  /** The colour family of a status icon or badge. */
  datatype Tone = Green | Yellow | Red | Gray

  /** The icon shapes the page uses. */
  datatype Glyph = CheckCircle | Clock | XCircle

  /** A rendered status icon: its shape, colour family and class list. */
  datatype Icon = Icon(glyph: Glyph, tone: Tone, classes: string)

  /** `getStatusIcon(status)`: the check mark is always green, the crossed
      circle always red, and the clock yellow or gray. */
  function StatusIcon(status: string): (icon: Icon)
    ensures icon.glyph == CheckCircle <==> icon.tone == Green
    ensures icon.glyph == XCircle <==> icon.tone == Red
    ensures icon.glyph == Clock <==> icon.tone == Yellow || icon.tone == Gray
  {
    if status == COMPLETED then Icon(CheckCircle, Green, "h-5 w-5 text-green-500")
    else if status == PENDING then Icon(Clock, Yellow, "h-5 w-5 text-yellow-500")
    else if status == FAILED then Icon(XCircle, Red, "h-5 w-5 text-red-500")
    else Icon(Clock, Gray, "h-5 w-5 text-gray-500")
  }

  /** `getStatusColor(status)`: the badge's class list, always that of the
      icon's colour family. */
  function StatusColor(status: string): (classes: string)
    ensures classes == BadgeClasses(StatusIcon(status).tone)
  {
    if status == COMPLETED then "text-green-600 dark:text-green-400 bg-green-50 dark:bg-green-900/20"
    else if status == PENDING then "text-yellow-600 dark:text-yellow-400 bg-yellow-50 dark:bg-yellow-900/20"
    else if status == FAILED then "text-red-600 dark:text-red-400 bg-red-50 dark:bg-red-900/20"
    else "text-gray-600 dark:text-gray-400 bg-gray-50 dark:bg-gray-900/20"
  }

  /** The badge class list of each colour family. */
  function BadgeClasses(tone: Tone): string {
    match tone
    case Green => "text-green-600 dark:text-green-400 bg-green-50 dark:bg-green-900/20"
    case Yellow => "text-yellow-600 dark:text-yellow-400 bg-yellow-50 dark:bg-yellow-900/20"
    case Red => "text-red-600 dark:text-red-400 bg-red-50 dark:bg-red-900/20"
    case Gray => "text-gray-600 dark:text-gray-400 bg-gray-50 dark:bg-gray-900/20"
  }

  /** The three known statuses get green, yellow and red and every other
      string gray; only a failed payment shows the crossed circle and only a
      completed one the check mark. */
  lemma StatusTones(status: string)
    ensures StatusIcon(status).tone == Green <==> status == COMPLETED
    ensures StatusIcon(status).tone == Yellow <==> status == PENDING
    ensures StatusIcon(status).tone == Red <==> status == FAILED
    ensures StatusIcon(status).tone == Gray <==> status !in {COMPLETED, PENDING, FAILED}
    ensures StatusIcon(status).glyph == CheckCircle <==> status == COMPLETED
    ensures StatusIcon(status).glyph == XCircle <==> status == FAILED
  {
  }

  /** The "subscription is active" banner under a payment. */
  predicate ShowsActiveBanner(p: Payment): (b: bool)
    ensures b ==> p.status == COMPLETED && p.kind != PREMIUM && p.kind != JOB_BOOST
  {
    p.status == COMPLETED && p.kind == SUBSCRIPTION
  }

  /** Rows the checkout dialog writes are typed `premium` or `job_boost`,
      never `subscription`, so whatever status they reach they never show
      the banner. */
  lemma CheckoutRowsShowNoBanner(userId: string, kind: Checkout.PaymentType, jobId: Option<string>,
                                 userCountry: string, provider: string, ref: string, status: string)
    ensures !ShowsActiveBanner(Checkout.PendingRow(userId, kind, jobId, userCountry, provider, ref).(status := status))
  {
  }

  /** `stripe_payment_id.slice(-8)`: the last eight characters, or the
      whole reference when it is shorter. */
  function ShortReference(ref: string): (r: string)
    ensures |r| == if |ref| < 8 then |ref| else 8
    ensures r == ref[|ref| - |r|..]
  {
    if |ref| < 8 then ref else ref[|ref| - 8..]
  }
}
