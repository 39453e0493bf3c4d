/** The "AI" helpers: resume parsing by keyword spotting and pattern
    matches, the template that dresses up a job description, and the
    requirement-match score with its random adjustment. */
module Ai {
  import opened Text
  import opened Store
  import opened Matching
  import opened Extraction
  import FindMatches

  const SKILL_KEYWORDS := [
    "JavaScript", "TypeScript", "Python", "Java", "C++", "React", "Vue", "Angular",
    "Node.js", "Express", "Django", "Flask", "SQL", "MongoDB", "PostgreSQL",
    "AWS", "Azure", "Docker", "Kubernetes", "Git", "Agile", "Scrum",
    "Machine Learning", "Data Science", "AI", "Project Management"]

  const MAX_SKILLS := 10
  const MATCHES_PER_PATTERN := 3
  const MAX_EXPERIENCE := 8

  /** `parseResumeText(text)`, where `patternMatches[i]` is what
      `text.match` returned for the i-th experience pattern (empty for
      `null`). */
  method ParseResumeText(text: string, patternMatches: seq<seq<string>>) returns (parsed: ParsedResume)
    ensures parsed.skills == Take(Dedup(KeywordsIn(text, SKILL_KEYWORDS)), MAX_SKILLS)
    ensures parsed.experience == Take(Dedup(Harvest(patternMatches, MATCHES_PER_PATTERN)), MAX_EXPERIENCE)
  {
    var skills := SpotKeywords(text, SKILL_KEYWORDS);
    var experience := HarvestMatches(patternMatches, MATCHES_PER_PATTERN);
    parsed := ParsedResume(Take(Dedup(skills), MAX_SKILLS), Take(Dedup(experience), MAX_EXPERIENCE));
  }

  /** The skills are keywords found in the text regardless of case, in
      keyword-list order, without repeats, and at most ten; when no more
      than ten keywords occur, every one of them is among the skills. */
  lemma ParsedSkillsShape(text: string)
    ensures var skills := Take(Dedup(KeywordsIn(text, SKILL_KEYWORDS)), MAX_SKILLS);
      && |skills| <= MAX_SKILLS && Distinct(skills)
      && (forall i :: 0 <= i < |skills| ==> skills[i] in SKILL_KEYWORDS && Contains(Lower(text), Lower(skills[i])))
      && (|KeywordsIn(text, SKILL_KEYWORDS)| <= MAX_SKILLS ==>
            forall i :: 0 <= i < |SKILL_KEYWORDS| && Contains(Lower(text), Lower(SKILL_KEYWORDS[i])) ==>
              SKILL_KEYWORDS[i] in skills)
  {
    var found := KeywordsIn(text, SKILL_KEYWORDS);
    TakeDistinct(Dedup(found), MAX_SKILLS);
    var skills := Take(Dedup(found), MAX_SKILLS);
    forall i | 0 <= i < |skills|
      ensures skills[i] in SKILL_KEYWORDS && Contains(Lower(text), Lower(skills[i]))
    {
      assert skills[i] in Dedup(found);
      var j :| 0 <= j < |found| && found[j] == skills[i];
    }
    if |found| <= MAX_SKILLS {
      assert skills == Dedup(found);
    }
  }

  /** The experience entries are pattern matches, each kept once at its
      first occurrence, at most eight. */
  lemma ParsedExperienceShape(patternMatches: seq<seq<string>>)
    ensures var experience := Take(Dedup(Harvest(patternMatches, MATCHES_PER_PATTERN)), MAX_EXPERIENCE);
      && |experience| <= MAX_EXPERIENCE && Distinct(experience)
      && forall i :: 0 <= i < |experience| ==> exists p :: 0 <= p < |patternMatches| && experience[i] in patternMatches[p]
  {
    var harvested := Harvest(patternMatches, MATCHES_PER_PATTERN);
    TakeDistinct(Dedup(harvested), MAX_EXPERIENCE);
    var experience := Take(Dedup(harvested), MAX_EXPERIENCE);
    forall i | 0 <= i < |experience|
      ensures exists p :: 0 <= p < |patternMatches| && experience[i] in patternMatches[p]
    {
      assert experience[i] in Dedup(harvested);
      HarvestFromMatches(patternMatches, MATCHES_PER_PATTERN, experience[i]);
    }
  }

  /** The template's text before the title and after the description. */
  const ENHANCED_HEAD := "\U{F0}\U{178}\U{161}\U{20AC} Exciting Opportunity: "
  const ENHANCED_TAIL :=
    "\n\nWhat We Offer:\n"
    + "\U{E2}\U{20AC}\U{A2} Competitive compensation package\n"
    + "\U{E2}\U{20AC}\U{A2} Comprehensive health, dental, and vision insurance\n"
    + "\U{E2}\U{20AC}\U{A2} Flexible work arrangements and remote options\n"
    + "\U{E2}\U{20AC}\U{A2} Professional development opportunities\n"
    + "\U{E2}\U{20AC}\U{A2} Modern technology stack and tools\n"
    + "\U{E2}\U{20AC}\U{A2} Collaborative and inclusive work environment\n\n"
    + "About the Role:\n"
    + "Join our innovative team where you'll have the opportunity to make a significant impact while growing your career. "
    + "We value creativity, collaboration, and continuous learning.\n\n"
    + "Ready to take the next step in your career? We'd love to hear from you!"

  lemma EnhancedEnds()
    ensures ENHANCED_HEAD != [] && !IsSpace(ENHANCED_HEAD[0])
    ensures ENHANCED_TAIL != [] && !IsSpace(ENHANCED_TAIL[|ENHANCED_TAIL| - 1])
  {
  }

  /** The template's visible text around `title` and `description`. */
  function Enhanced(title: string, description: string): string {
    ENHANCED_HEAD + title + "\n\n" + description + ENHANCED_TAIL
  }

  /** The visible text starts and ends with a non-white-space character and
      holds the title and the description verbatim. */
  lemma EnhancedShape(title: string, description: string)
    ensures IsTrimmed(Enhanced(title, description))
    ensures Contains(Enhanced(title, description), title)
    ensures Contains(Enhanced(title, description), description)
  {
    var visible := Enhanced(title, description);
    EnhancedEnds();
    assert visible[0] == ENHANCED_HEAD[0];
    assert visible[|visible| - 1] == ENHANCED_TAIL[|ENHANCED_TAIL| - 1];
    var rest := "\n\n" + description + ENHANCED_TAIL;
    assert visible == ENHANCED_HEAD + title + rest;
    OccursInMiddle(ENHANCED_HEAD, title, rest);
    var front := ENHANCED_HEAD + title + "\n\n";
    assert visible == front + description + ENHANCED_TAIL;
    OccursInMiddle(front, description, ENHANCED_TAIL);
  }

  /** `enhanceJobDescription(title, description)`: the template, trimmed.
      Trimming removes only the template's framing line breaks, so the title
      and the description appear verbatim. */
  function EnhanceJobDescription(title: string, description: string): (enhanced: string)
    ensures enhanced == Enhanced(title, description)
    ensures Contains(enhanced, description) && Contains(enhanced, title)
  {
    EnhancedShape(title, description);
    TrimPadded("\n", Enhanced(title, description), "\n  ");
    Trim("\n" + Enhanced(title, description) + "\n  ")
  }

  /** `calculateJobMatchScore(userSkills, jobRequirements)`, with
      `fallbackDraw` the `Math.random()` used when there are no
      requirements and `varianceDraw` the one that makes the variance. */
  function CalculateJobMatchScore(userSkills: seq<string>, reqs: seq<string>,
                                  fallbackDraw: real, varianceDraw: real): (score: int)
    requires 0.0 <= fallbackDraw < 1.0 && 0.0 <= varianceDraw < 1.0
    ensures reqs == [] ==> 70 <= score <= 99
    ensures reqs != [] ==> 30 <= score <= 95
  {
    if |reqs| == 0 then
      Floor(fallbackDraw * 30.0) + 70
    else
      var matching := MatchingSkills(userSkills, reqs);
      var baseScore := |matching| as real / |reqs| as real * 100.0;
      var variance := varianceDraw * 20.0 - 10.0;
      Min(Max(Round(baseScore + variance), 30), 95)
  }

  /** The score is the clamp of the rounded ratio plus a variance in
      [-10, 10): it never strays more than 10 from the clamped ratio. */
  lemma VarianceIsBounded(userSkills: seq<string>, reqs: seq<string>, fallbackDraw: real, varianceDraw: real)
    requires 0.0 <= fallbackDraw < 1.0 && 0.0 <= varianceDraw < 1.0 && reqs != []
    ensures var ratio := Min(Max(FindMatches.RatioScore(|MatchingSkills(userSkills, reqs)|, |reqs|), 30), 95);
      -10 <= CalculateJobMatchScore(userSkills, reqs, fallbackDraw, varianceDraw) - ratio <= 10
  {
    var m := |MatchingSkills(userSkills, reqs)|;
    RoundShift(m as real / |reqs| as real * 100.0, varianceDraw * 20.0 - 10.0);
  }

  /** With the variance at zero, the two scoring functions agree on any job
      that lists requirements, except that this one never goes below 30. */
  lemma AgreesWithFindMatches(job: Job, userSkills: seq<string>, draw: real)
    requires 0.0 <= draw < 1.0 && job.requirements.Some? && job.requirements.value != []
    ensures CalculateJobMatchScore(userSkills, job.requirements.value, draw, 0.5)
         == Max(FindMatches.CalculateJobMatch(job, userSkills, draw).score, 30)
  {
    var reqs := job.requirements.value;
    var m := |MatchingSkills(userSkills, reqs)|;
    assert 0.5 * 20.0 - 10.0 == 0.0;
    assert m as real / |reqs| as real * 100.0 + 0.0 == m as real / |reqs| as real * 100.0;
  }
}
