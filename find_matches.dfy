/** The job-matching page: one score per job, then the three best by a
    stable descending sort. */
module FindMatches {
  import opened Store
  import opened Matching

  /** A job with its score and the user's skills that matched it. */
  datatype JobMatch = JobMatch(job: Job, score: int, matchingSkills: seq<string>)

  /** `job.requirements || []`. */
  function Requirements(job: Job): seq<string> {
    if job.requirements.Some? then job.requirements.value else []
  }

  /** The uncapped ratio score, `Math.round(|matching| / |requirements| * 100)`. */
  function RatioScore(matching: nat, requirements: nat): (r: int)
    requires requirements > 0
    ensures r >= 0
    ensures matching == 0 ==> r == 0
    ensures matching >= requirements ==> r >= 100
  {
    assert matching >= requirements ==> matching as real / requirements as real >= 1.0;
    Round(matching as real / requirements as real * 100.0)
  }

  /** More matching skills never lower the ratio score. */
  lemma RatioScoreMonotone(m1: nat, m2: nat, requirements: nat)
    requires requirements > 0 && m1 <= m2
    ensures RatioScore(m1, requirements) <= RatioScore(m2, requirements)
  {
    assert m1 as real / requirements as real <= m2 as real / requirements as real;
    RoundMonotone(m1 as real / requirements as real * 100.0, m2 as real / requirements as real * 100.0);
  }

  /** `calculateJobMatch(job, userSkills)` with `draw` the value
      `Math.random()` returns, used only when the job lists no requirements. */
  function CalculateJobMatch(job: Job, userSkills: seq<string>, draw: real): (r: JobMatch)
    requires 0.0 <= draw < 1.0
    ensures r.job == job
    ensures r.matchingSkills == MatchingSkills(userSkills, Requirements(job))
    ensures 0 <= r.score <= 95
    ensures Requirements(job) == [] ==> 60 <= r.score
    ensures Requirements(job) != [] ==>
      r.score == Min(RatioScore(|r.matchingSkills|, |Requirements(job)|), 95)
  {
    var reqs := Requirements(job);
    var matching := MatchingSkills(userSkills, reqs);
    var score := if |reqs| > 0 then RatioScore(|matching|, |reqs|) else Floor(draw * 40.0) + 60;
    JobMatch(job, Min(score, 95), matching)
  }

  /** When at least as many skills match as there are requirements, the
      score is the cap; since several skills can match one requirement this
      can happen with fewer skills than requirements would suggest. */
  lemma FullCoverageHitsCap(job: Job, userSkills: seq<string>, draw: real)
    requires 0.0 <= draw < 1.0 && Requirements(job) != []
    requires |MatchingSkills(userSkills, Requirements(job))| >= |Requirements(job)|
    ensures CalculateJobMatch(job, userSkills, draw).score == 95
  {
  }

  /** A user with more skills scores at least as high on the same job. */
  lemma MoreSkillsNeverScoreLower(job: Job, skills: seq<string>, extra: seq<string>, draw: real)
    requires 0.0 <= draw < 1.0 && Requirements(job) != []
    ensures CalculateJobMatch(job, skills, draw).score <= CalculateJobMatch(job, skills + extra, draw).score
  {
    MatchingSkillsAppend(skills, extra, Requirements(job));
    RatioScoreMonotone(|MatchingSkills(skills, Requirements(job))|,
                       |MatchingSkills(skills + extra, Requirements(job))|, |Requirements(job)|);
  }

  /** `jobs.map(job => calculateJobMatch(job, skills))`, one draw per job. */
  function ScoreAll(jobs: seq<Job>, skills: seq<string>, draws: seq<real>): (ms: seq<JobMatch>)
    requires |draws| == |jobs| && forall i :: 0 <= i < |draws| ==> 0.0 <= draws[i] < 1.0
    ensures |ms| == |jobs|
    ensures forall i :: 0 <= i < |jobs| ==> ms[i] == CalculateJobMatch(jobs[i], skills, draws[i])
  {
    seq(|jobs|, i requires 0 <= i < |jobs| => CalculateJobMatch(jobs[i], skills, draws[i]))
  }

  predicate NonIncreasing(ms: seq<JobMatch>) {
    forall i, j :: 0 <= i < j < |ms| ==> ms[i].score >= ms[j].score
  }

  /** Index of the first entry scoring below `s`, or `|ms|`. */
  function FirstBelow(ms: seq<JobMatch>, s: int): (p: nat)
    ensures p <= |ms|
    ensures forall k :: 0 <= k < p ==> ms[k].score >= s
    ensures p < |ms| ==> ms[p].score < s
  {
    if ms == [] || ms[0].score < s then 0 else 1 + FirstBelow(ms[1..], s)
  }

  /** Places `m` after every entry scoring at least as much, which is where
      a stable sort puts a later element. */
  function InsertByScore(ms: seq<JobMatch>, m: JobMatch): (r: seq<JobMatch>)
    ensures |r| == |ms| + 1
  {
    var p := FirstBelow(ms, m.score);
    ms[..p] + [m] + ms[p..]
  }

  /** The stable descending-score order `sort((a, b) => b.score - a.score)`
      produces: as many entries as given, highest score first. */
  function SortByScore(ms: seq<JobMatch>): (r: seq<JobMatch>)
    ensures |r| == |ms|
    ensures NonIncreasing(r)
  {
    if ms == [] then []
    else
      var sorted := SortByScore(ms[..|ms| - 1]);
      InsertByScoreSorted(sorted, ms[|ms| - 1]);
      InsertByScore(sorted, ms[|ms| - 1])
  }

  lemma InsertByScoreSorted(ms: seq<JobMatch>, m: JobMatch)
    requires NonIncreasing(ms)
    ensures NonIncreasing(InsertByScore(ms, m))
  {
    var p := FirstBelow(ms, m.score);
    var r := InsertByScore(ms, m);
    assert |r| == |ms| + 1;
    forall i, j | 0 <= i < j < |r| ensures r[i].score >= r[j].score {
      var si := if i < p then ms[i].score else if i == p then m.score else ms[i - 1].score;
      var sj := if j < p then ms[j].score else if j == p then m.score else ms[j - 1].score;
      assert r[i].score == si && r[j].score == sj;
    }
  }

  lemma InsertByScorePermutes(ms: seq<JobMatch>, m: JobMatch)
    ensures multiset(InsertByScore(ms, m)) == multiset(ms) + multiset{m}
  {
    var p := FirstBelow(ms, m.score);
    assert ms == ms[..p] + ms[p..];
  }

  /** The sort yields a non-increasing permutation of its input. */
  lemma {:induction false} SortByScoreSorted(ms: seq<JobMatch>)
    ensures NonIncreasing(SortByScore(ms))
    ensures multiset(SortByScore(ms)) == multiset(ms)
  {
    if ms != [] {
      var init := ms[..|ms| - 1];
      SortByScoreSorted(init);
      InsertByScoreSorted(SortByScore(init), ms[|ms| - 1]);
      InsertByScorePermutes(SortByScore(init), ms[|ms| - 1]);
      assert ms == init + [ms[|ms| - 1]];
    }
  }

  /** The sort of a longer prefix inserts the next element into the sort
      of the shorter one. */
  lemma SortByScorePrefix(s: seq<JobMatch>, i: nat)
    requires i < |s|
    ensures SortByScore(s[..i + 1]) == InsertByScore(SortByScore(s[..i]), s[i])
  {
    assert s[..i + 1][..i] == s[..i];
  }

  /** The entries scoring exactly `s`, in their order. */
  function WithScore(ms: seq<JobMatch>, s: int): (r: seq<JobMatch>)
    ensures |r| <= |ms|
    ensures forall i :: 0 <= i < |r| ==> r[i].score == s
  {
    if ms == [] then []
    else
      var init := WithScore(ms[..|ms| - 1], s);
      if ms[|ms| - 1].score == s then init + [ms[|ms| - 1]] else init
  }

  lemma {:induction false} WithScoreAppend(a: seq<JobMatch>, b: seq<JobMatch>, s: int)
    ensures WithScore(a + b, s) == WithScore(a, s) + WithScore(b, s)
    decreases |b|
  {
    if b == [] {
      assert a + b == a;
    } else {
      var init := b[..|b| - 1];
      WithScoreAppend(a, init, s);
      assert (a + b)[..|a + b| - 1] == a + init;
      assert (a + b)[|a + b| - 1] == b[|b| - 1];
    }
  }

  lemma {:induction false} WithScoreNone(ms: seq<JobMatch>, s: int)
    requires forall i :: 0 <= i < |ms| ==> ms[i].score < s
    ensures WithScore(ms, s) == []
    decreases |ms|
  {
    if ms != [] {
      WithScoreNone(ms[..|ms| - 1], s);
    }
  }

  /** A single entry is kept exactly when it has the score. */
  lemma WithScoreSingle(m: JobMatch, s: int)
    ensures WithScore([m], s) == if m.score == s then [m] else []
  {
    assert [m][..0] == [];
  }

  /** Splicing an entry between two parts adds it after the part's own
      entries of its score, provided nothing after it has that score. */
  lemma WithScoreSplice(a: seq<JobMatch>, b: seq<JobMatch>, m: JobMatch, s: int)
    requires m.score == s ==> forall k :: 0 <= k < |b| ==> b[k].score < s
    ensures WithScore(a + [m] + b, s) == WithScore(a + b, s) + (if m.score == s then [m] else [])
  {
    var wa, wb := WithScore(a, s), WithScore(b, s);
    WithScoreAppend(a, b, s);
    WithScoreAppend(a + [m], b, s);
    WithScoreAppend(a, [m], s);
    WithScoreSingle(m, s);
    if m.score == s {
      WithScoreNone(b, s);
      assert wa + [m] + wb == (wa + wb) + [m] by { assert wb == []; }
    } else {
      assert wa + [] + wb == wa + wb;
    }
  }

  /** In a sorted list, everything from the insertion point on scores
      below the inserted entry. */
  lemma BelowInsertionPoint(xs: seq<JobMatch>, m: JobMatch)
    requires NonIncreasing(xs)
    ensures var p := FirstBelow(xs, m.score);
      forall k :: 0 <= k < |xs[p..]| ==> xs[p..][k].score < m.score
  {
    var p := FirstBelow(xs, m.score);
    forall k | 0 <= k < |xs[p..]| ensures xs[p..][k].score < m.score {
      assert xs[p..][k] == xs[p + k] && xs[p].score >= xs[p + k].score;
    }
  }

  /** Inserting into a sorted list puts the new entry after every entry of
      the same score. */
  lemma InsertByScoreStable(xs: seq<JobMatch>, m: JobMatch, s: int)
    requires NonIncreasing(xs)
    ensures WithScore(InsertByScore(xs, m), s) == WithScore(xs, s) + (if m.score == s then [m] else [])
  {
    var p := FirstBelow(xs, m.score);
    BelowInsertionPoint(xs, m);
    WithScoreSplice(xs[..p], xs[p..], m, s);
    assert xs[..p] + xs[p..] == xs;
  }

  /** Entries of equal score keep their input order: for every score, the
      entries with that score appear in the sorted list exactly as they do
      in the input. */
  lemma {:induction false} SortByScoreStable(ms: seq<JobMatch>, s: int)
    ensures WithScore(SortByScore(ms), s) == WithScore(ms, s)
  {
    if ms != [] {
      var init := ms[..|ms| - 1];
      SortByScoreStable(init, s);
      InsertByScoreStable(SortByScore(init), ms[|ms| - 1], s);
    }
  }

  /** `.slice(0, 3)` of the sorted matches. */
  function TopMatches(ms: seq<JobMatch>): (r: seq<JobMatch>)
    ensures |r| == Min(|ms|, 3) && NonIncreasing(r)
  {
    var sorted := SortByScore(ms);
    if |sorted| <= 3 then sorted else sorted[..3]
  }

  lemma SortByScoreMembers(ms: seq<JobMatch>)
    ensures |SortByScore(ms)| == |ms|
    ensures forall m :: m in SortByScore(ms) <==> m in ms
  {
    SortByScoreSorted(ms);
    var sorted := SortByScore(ms);
    assert |multiset(sorted)| == |multiset(ms)|;
    forall m ensures m in sorted <==> m in ms {
      assert m in sorted <==> m in multiset(sorted);
      assert m in ms <==> m in multiset(ms);
    }
  }

  /** The top matches number at most three (all of them when there are
      fewer), are non-increasing in score, are each one of the computed
      matches, and no match left out scores above any match kept. */
  lemma TopMatchesAreBest(ms: seq<JobMatch>)
    ensures var top := TopMatches(ms);
      && |top| == Min(|ms|, 3)
      && NonIncreasing(top)
      && (forall i :: 0 <= i < |top| ==> top[i] in ms)
      && (forall m :: m in ms && m !in top ==> forall i :: 0 <= i < |top| ==> m.score <= top[i].score)
  {
    var sorted := SortByScore(ms);
    SortByScoreSorted(ms);
    SortByScoreMembers(ms);
    var top := TopMatches(ms);
    assert top == sorted[..|top|];
    forall i | 0 <= i < |top| ensures top[i] in ms {
      assert top[i] in sorted;
    }
    forall m | m in ms && m !in top ensures forall i :: 0 <= i < |top| ==> m.score <= top[i].score {
      var j :| 0 <= j < |sorted| && sorted[j] == m;
      assert j >= |top|;
    }
  }

  /** Sorts `a` in place into `SortByScore` order, growing a sorted
      prefix one element at a time. */
  method SortInPlace(a: array<JobMatch>)
    modifies a
    ensures a[..] == SortByScore(old(a[..]))
  {
    ghost var input := a[..];
    var i := 0;
    while i < a.Length
      invariant 0 <= i <= a.Length
      invariant a[..i] == SortByScore(input[..i])
      invariant forall k :: i <= k < a.Length ==> a[k] == input[k]
    {
      SortByScoreSorted(input[..i]);
      InsertNext(a, i);
      SortByScorePrefix(input, i);
      i := i + 1;
    }
    assert a[..] == a[..a.Length] && input[..a.Length] == input;
  }

  /** Moves `a[i]` left past the entries of the sorted prefix `a[..i]` that
      score strictly less. */
  method InsertNext(a: array<JobMatch>, i: nat)
    requires i < a.Length && NonIncreasing(a[..i])
    modifies a
    ensures a[..i + 1] == InsertByScore(old(a[..i]), old(a[i]))
    ensures forall k :: i < k < a.Length ==> a[k] == old(a[k])
  {
    var m := a[i];
    ghost var sorted := a[..i];
    var j := i;
    while j > 0 && a[j - 1].score < m.score
      invariant 0 <= j <= i
      invariant forall k :: 0 <= k < j ==> a[k] == sorted[k]
      invariant forall k :: j < k <= i ==> a[k] == sorted[k - 1]
      invariant forall k :: i < k < a.Length ==> a[k] == old(a[k])
      invariant forall k :: j <= k < i ==> sorted[k].score < m.score
    {
      a[j] := a[j - 1];
      j := j - 1;
    }
    a[j] := m;
    ShiftedInsert(sorted, a, m, j);
  }

  /** The array contents the shifting loop leaves are the insertion
      `InsertByScore` describes. */
  lemma ShiftedInsert(sorted: seq<JobMatch>, a: array<JobMatch>, m: JobMatch, j: nat)
    requires NonIncreasing(sorted) && j <= |sorted| < a.Length
    requires forall k :: 0 <= k < j ==> a[k] == sorted[k]
    requires a[j] == m
    requires forall k :: j < k <= |sorted| ==> a[k] == sorted[k - 1]
    requires j > 0 ==> sorted[j - 1].score >= m.score
    requires forall k :: j <= k < |sorted| ==> sorted[k].score < m.score
    ensures a[..|sorted| + 1] == InsertByScore(sorted, m)
  {
    FirstBelowAt(sorted, m.score, j);
    var r := sorted[..j] + [m] + sorted[j..];
    forall k | 0 <= k <= |sorted| ensures a[k] == r[k] {
      if k < j { assert r[k] == sorted[k]; }
      else if k > j { assert r[k] == sorted[k - 1]; }
    }
  }

  /** In a non-increasing list, an index with nothing below `s` before it and
      an entry below `s` at it (or the end) is the first such index. */
  lemma FirstBelowAt(ms: seq<JobMatch>, s: int, j: nat)
    requires NonIncreasing(ms) && j <= |ms|
    requires j > 0 ==> ms[j - 1].score >= s
    requires forall k :: j <= k < |ms| ==> ms[k].score < s
    ensures FirstBelow(ms, s) == j
  {
  }

  /** What the jobs query returned. */
  datatype Fetched = Jobs(jobs: seq<Job>) | FetchFailed(message: Option<string>)

  const RESUME_REQUIRED := "Please upload your resume first"
  const FIND_FAILED := "Failed to find matches"

  /** The page's state. */
  class FindMatchesPage {
    var matches: seq<JobMatch>
    var loading: bool
    var error: string

    constructor ()
      ensures matches == [] && !loading && error == ""
    {
      matches, loading, error := [], false, "";
    }

    /** `findMatches()`: `resumeSkills` is the loaded resume's skill list,
      `fetched` the result of the jobs query and `draws` one
      `Math.random()` value per fetched job. */
    method FindMatches(signedIn: bool, resumeSkills: Option<seq<string>>, fetched: Fetched, draws: seq<real>)
      requires fetched.Jobs? ==> |draws| == |fetched.jobs|
      requires forall i :: 0 <= i < |draws| ==> 0.0 <= draws[i] < 1.0
      modifies this
      ensures !signedIn || resumeSkills.None? ==>
        error == RESUME_REQUIRED && matches == old(matches) && loading == old(loading)
      ensures signedIn && resumeSkills.Some? && fetched.Jobs? ==>
        && matches == TopMatches(ScoreAll(fetched.jobs, resumeSkills.value, draws))
        && error == "" && !loading
      ensures signedIn && resumeSkills.Some? && fetched.FetchFailed? ==>
        && matches == old(matches)
        && error == ErrorText(fetched.message, FIND_FAILED) && !loading
    {
      if !signedIn || resumeSkills.None? {
        error := RESUME_REQUIRED;
        return;
      }
      loading := true;
      error := "";
      match fetched {
        case FetchFailed(message) =>
          error := ErrorText(message, FIND_FAILED);
        case Jobs(jobs) =>
          var scored := ScoreAll(jobs, resumeSkills.value, draws);
          var a := new JobMatch[|scored|](i requires 0 <= i < |scored| => scored[i]);
          assert a[..] == scored;
          SortInPlace(a);
          matches := if a.Length <= 3 then a[..] else a[..3];
      }
      loading := false;
    }
  }
}
