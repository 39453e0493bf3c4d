/** The list operations both resume parsers are built from: keyword
    spotting, per-pattern harvesting of regular-expression matches,
    first-occurrence de-duplication (`[...new Set(xs)]`) and capping
    (`slice(0, n)`). */
module Extraction {
  import opened Text

  /** The result of parsing a resume. */
  datatype ParsedResume = ParsedResume(skills: seq<string>, experience: seq<string>)

  /** `xs.slice(0, n)`. */
  function Take<T>(xs: seq<T>, n: nat): (r: seq<T>)
    ensures |r| == if |xs| <= n then |xs| else n
    ensures r == xs[..|r|]
  {
    if |xs| <= n then xs else xs[..n]
  }

  predicate Distinct<T(==)>(xs: seq<T>) {
    forall i, j :: 0 <= i < j < |xs| ==> xs[i] != xs[j]
  }

  /** Capping a list without repeats leaves it without repeats. */
  lemma TakeDistinct<T>(xs: seq<T>, n: nat)
    requires Distinct(xs)
    ensures Distinct(Take(xs, n))
  {
  }

  /** `[...new Set(xs)]`: each value once, at the place it first occurs. */
  function Dedup(xs: seq<string>): (r: seq<string>)
    ensures Distinct(r)
    ensures forall x :: x in r <==> x in xs
    ensures |r| <= |xs|
  {
    if xs == [] then []
    else
      var d := Dedup(xs[..|xs| - 1]);
      var x := xs[|xs| - 1];
      assert forall y :: y in xs <==> y in xs[..|xs| - 1] || y == x;
      if x in d then d else d + [x]
  }

  /** A list without repeats is its own de-duplication. */
  lemma {:induction false} DedupDistinct(xs: seq<string>)
    requires Distinct(xs)
    ensures Dedup(xs) == xs
  {
    if xs != [] {
      var init := xs[..|xs| - 1];
      DedupDistinct(init);
      assert xs[|xs| - 1] !in init;
      assert init + [xs[|xs| - 1]] == xs;
    }
  }

  /** De-duplication keeps the order of first occurrences: de-duplicating a
      longer list only appends to the de-duplication of its prefix. */
  lemma {:induction false} DedupPrefix(xs: seq<string>, ys: seq<string>)
    ensures Dedup(xs) <= Dedup(xs + ys)
    decreases |ys|
  {
    if ys == [] {
      assert xs + ys == xs;
    } else {
      var zs := xs + ys[..|ys| - 1];
      DedupPrefix(xs, ys[..|ys| - 1]);
      assert (xs + ys)[..|xs + ys| - 1] == zs;
      var d := Dedup(zs);
      assert Dedup(xs + ys) == d || Dedup(xs + ys) == d + [ys[|ys| - 1]];
    }
  }

  /** The keywords whose lower-case form occurs in the lower-cased text, in
      keyword-list order. */
  function KeywordsIn(text: string, keywords: seq<string>): (r: seq<string>)
    ensures |r| <= |keywords|
    ensures forall i :: 0 <= i < |r| ==> r[i] in keywords && Contains(Lower(text), Lower(r[i]))
    ensures forall i :: 0 <= i < |keywords| && Contains(Lower(text), Lower(keywords[i])) ==> keywords[i] in r
  {
    if keywords == [] then []
    else
      var init := KeywordsIn(text, keywords[..|keywords| - 1]);
      var k := keywords[|keywords| - 1];
      assert forall y :: y in keywords <==> y in keywords[..|keywords| - 1] || y == k;
      if Contains(Lower(text), Lower(k)) then init + [k] else init
  }

  /** The `keywords.forEach(k => { if (text.toLowerCase().includes(
      k.toLowerCase())) found.push(k) })` loop. */
  method SpotKeywords(text: string, keywords: seq<string>) returns (found: seq<string>)
    ensures found == KeywordsIn(text, keywords)
  {
    found := [];
    var lowered := Lower(text);
    for i := 0 to |keywords|
      invariant found == KeywordsIn(text, keywords[..i])
    {
      assert keywords[..i + 1][..i] == keywords[..i];
      if Contains(lowered, Lower(keywords[i])) {
        found := found + [keywords[i]];
      }
    }
    assert keywords[..|keywords|] == keywords;
  }

  /** Spotting over two keyword lists back to back spots over each in turn. */
  lemma {:induction false} KeywordsInAppend(text: string, a: seq<string>, b: seq<string>)
    ensures KeywordsIn(text, a + b) == KeywordsIn(text, a) + KeywordsIn(text, b)
    decreases |b|
  {
    if b == [] {
      assert a + b == a;
    } else {
      var init := b[..|b| - 1];
      KeywordsInAppend(text, a, init);
      assert (a + b)[..|a + b| - 1] == a + init;
      assert (a + b)[|a + b| - 1] == b[|b| - 1];
    }
  }

  /** The spotted keywords are a sub-list of the keyword list, so a list
      without repeats yields spotted keywords without repeats. */
  lemma {:induction false} KeywordsInDistinct(text: string, keywords: seq<string>)
    requires Distinct(keywords)
    ensures Distinct(KeywordsIn(text, keywords))
  {
    if keywords != [] {
      var init := keywords[..|keywords| - 1];
      KeywordsInDistinct(text, init);
      assert keywords[|keywords| - 1] !in init;
    }
  }

  /** The first `cap` matches of each pattern, concatenated in pattern
      order; a pattern that matched nothing contributes nothing. */
  function Harvest(matches: seq<seq<string>>, cap: nat): (r: seq<string>)
    ensures |r| <= cap * |matches|
  {
    if matches == [] then []
    else
      var init := Harvest(matches[..|matches| - 1], cap);
      var last := Take(matches[|matches| - 1], cap);
      assert cap * (|matches| - 1) + cap == cap * |matches|;
      init + last
  }

  /** The `patterns.forEach(p => { const m = text.match(p); if (m)
      found.push(...m.slice(0, cap)) })` loop, with the matches given. */
  method HarvestMatches(matches: seq<seq<string>>, cap: nat) returns (found: seq<string>)
    ensures found == Harvest(matches, cap)
  {
    found := [];
    for i := 0 to |matches|
      invariant found == Harvest(matches[..i], cap)
    {
      assert matches[..i + 1][..i] == matches[..i];
      found := found + Take(matches[i], cap);
    }
    assert matches[..|matches|] == matches;
  }

  /** Patterns that all matched nothing harvest nothing. */
  lemma {:induction false} HarvestOfEmpty(matches: seq<seq<string>>, cap: nat)
    requires forall i :: 0 <= i < |matches| ==> matches[i] == []
    ensures Harvest(matches, cap) == []
    decreases |matches|
  {
    if matches != [] {
      HarvestOfEmpty(matches[..|matches| - 1], cap);
    }
  }

  /** Everything harvested is a match of some pattern. */
  lemma {:induction false} HarvestFromMatches(matches: seq<seq<string>>, cap: nat, x: string)
    requires x in Harvest(matches, cap)
    ensures exists i :: 0 <= i < |matches| && x in matches[i]
    decreases |matches|
  {
    var n := |matches| - 1;
    var init := Harvest(matches[..n], cap);
    if x in init {
      HarvestFromMatches(matches[..n], cap, x);
      var i :| 0 <= i < n && x in matches[..n][i];
      assert x in matches[i];
    } else {
      assert x in Take(matches[n], cap);
    }
  }

  /** Every pattern's leading matches, up to the cap, are harvested. */
  lemma {:induction false} HarvestKeepsLeading(matches: seq<seq<string>>, cap: nat, i: nat, k: nat)
    requires i < |matches| && k < |matches[i]| && k < cap
    ensures matches[i][k] in Harvest(matches, cap)
    decreases |matches|
  {
    var n := |matches| - 1;
    if i < n {
      HarvestKeepsLeading(matches[..n], cap, i, k);
    } else {
      assert Take(matches[n], cap)[k] == matches[n][k];
    }
  }
}
