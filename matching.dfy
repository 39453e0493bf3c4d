/** The skill-to-requirement test shared by both scoring functions, the
    filter that selects a user's matching skills, and the rounding
    functions the scores use. */
module Matching {
  import opened Text

  /** `req.toLowerCase().includes(skill.toLowerCase()) ||
      skill.toLowerCase().includes(req.toLowerCase())`. */
  predicate SkillMatches(skill: string, req: string) {
    Contains(Lower(req), Lower(skill)) || Contains(Lower(skill), Lower(req))
  }

  /** Lower-casing twice is lower-casing once. */
  lemma LowerIdempotent(s: string)
    ensures Lower(Lower(s)) == Lower(s)
  {
  }

  /** The test is symmetric, ignores case on either side, and accepts a
      skill spelled exactly like the requirement. */
  lemma SkillMatchesProperties(skill: string, req: string)
    ensures SkillMatches(skill, req) <==> SkillMatches(req, skill)
    ensures SkillMatches(Lower(skill), req) <==> SkillMatches(skill, req)
    ensures Lower(skill) == Lower(req) ==> SkillMatches(skill, req)
  {
    LowerIdempotent(skill);
    ContainsSelf(Lower(req));
  }

  /** An empty requirement (or skill) matches everything, since every
      string contains the empty string. */
  lemma EmptyMatchesEverything(skill: string)
    ensures SkillMatches(skill, "") && SkillMatches("", skill)
  {
    assert OccursAt(Lower(skill), Lower(""), 0);
  }

  /** `jobRequirements.some(req => ...)`. */
  function AnyRequirement(skill: string, reqs: seq<string>): (b: bool)
    ensures b <==> exists i :: 0 <= i < |reqs| && SkillMatches(skill, reqs[i])
  {
    if reqs == [] then false
    else SkillMatches(skill, reqs[0]) || AnyRequirement(skill, reqs[1..])
  }

  /** `userSkills.filter(skill => jobRequirements.some(...))`: the matching
      skills in their original order, duplicates kept. */
  function MatchingSkills(skills: seq<string>, reqs: seq<string>): (m: seq<string>)
    ensures |m| <= |skills|
    ensures forall i :: 0 <= i < |m| ==> m[i] in skills && AnyRequirement(m[i], reqs)
    ensures forall i :: 0 <= i < |skills| && AnyRequirement(skills[i], reqs) ==> skills[i] in m
  {
    if skills == [] then []
    else (if AnyRequirement(skills[0], reqs) then [skills[0]] else []) + MatchingSkills(skills[1..], reqs)
  }

  /** Filtering distributes over concatenation, so the relative order of
      the user's skills survives. */
  lemma {:induction false} MatchingSkillsAppend(a: seq<string>, b: seq<string>, reqs: seq<string>)
    ensures MatchingSkills(a + b, reqs) == MatchingSkills(a, reqs) + MatchingSkills(b, reqs)
    decreases |a|
  {
    if a != [] {
      assert (a + b)[1..] == a[1..] + b;
      MatchingSkillsAppend(a[1..], b, reqs);
    } else {
      assert a + b == b;
    }
  }

  /** Every skill matches when the requirements contain an empty string. */
  lemma {:induction false} EmptyRequirementMatchesAll(skills: seq<string>, reqs: seq<string>)
    requires "" in reqs
    ensures MatchingSkills(skills, reqs) == skills
    decreases |skills|
  {
    if skills != [] {
      EmptyMatchesEverything(skills[0]);
      EmptyRequirementMatchesAll(skills[1..], reqs);
      assert [skills[0]] + skills[1..] == skills;
    }
  }

  /** Adding requirements never loses a matching skill. */
  lemma {:induction false} MatchingSkillsGrow(skills: seq<string>, reqs: seq<string>, more: seq<string>)
    requires forall i :: 0 <= i < |reqs| ==> reqs[i] in more
    ensures |MatchingSkills(skills, reqs)| <= |MatchingSkills(skills, more)|
    decreases |skills|
  {
    if skills != [] {
      if AnyRequirement(skills[0], reqs) {
        var i :| 0 <= i < |reqs| && SkillMatches(skills[0], reqs[i]);
        var j :| 0 <= j < |more| && more[j] == reqs[i];
        assert AnyRequirement(skills[0], more);
      }
      MatchingSkillsGrow(skills[1..], reqs, more);
    }
  }

  /** `Math.floor`. */
  function Floor(x: real): (r: int)
    ensures r as real <= x < r as real + 1.0
  {
    x.Floor
  }

  /** `Math.round`: the nearest integer, halves rounding up. */
  function Round(x: real): (r: int)
    ensures r as real - 0.5 <= x < r as real + 0.5
  {
    (x + 0.5).Floor
  }

  lemma RoundMonotone(x: real, y: real)
    requires x <= y
    ensures Round(x) <= Round(y)
  {
  }

  /** Rounding an integer gives that integer. */
  lemma RoundInt(n: int)
    ensures Round(n as real) == n
  {
  }

  /** Shifting by at most 10 moves the rounded value by at most 10. */
  lemma RoundShift(x: real, v: real)
    requires -10.0 <= v <= 10.0
    ensures -10 <= Round(x + v) - Round(x) <= 10
  {
  }

  function Min(a: int, b: int): (m: int)
    ensures m <= a && m <= b && (m == a || m == b)
  {
    if a < b then a else b
  }

  function Max(a: int, b: int): (m: int)
    ensures m >= a && m >= b && (m == a || m == b)
  {
    if a > b then a else b
  }
}
