/** The job-posting page: requirement parsing from the comma-separated
    field, the description template, and the submit handler's state
    changes. */
module PostJob {
  import opened Store
  import opened Text

  /** `.map(req => req.trim())`. */
  function TrimAll(pieces: seq<string>): (r: seq<string>)
    ensures |r| == |pieces|
    ensures forall i :: 0 <= i < |r| ==> r[i] == Trim(pieces[i])
  {
    if pieces == [] then [] else [Trim(pieces[0])] + TrimAll(pieces[1..])
  }

  /** `.filter(req => req.length > 0)`. */
  function NonEmpty(pieces: seq<string>): (r: seq<string>)
    ensures |r| <= |pieces|
    ensures forall i :: 0 <= i < |r| ==> r[i] != [] && r[i] in pieces
    ensures forall i :: 0 <= i < |pieces| && pieces[i] != [] ==> pieces[i] in r
  {
    if pieces == [] then []
    else (if pieces[0] != [] then [pieces[0]] else []) + NonEmpty(pieces[1..])
  }

  lemma {:induction false} NonEmptyAppend(a: seq<string>, b: seq<string>)
    ensures NonEmpty(a + b) == NonEmpty(a) + NonEmpty(b)
    decreases |a|
  {
    if a == [] {
      assert a + b == b;
    } else {
      assert (a + b)[1..] == a[1..] + b;
      NonEmptyAppend(a[1..], b);
    }
  }

  lemma {:induction false} NonEmptyOfNonEmpty(pieces: seq<string>)
    requires forall i :: 0 <= i < |pieces| ==> pieces[i] != []
    ensures NonEmpty(pieces) == pieces
    decreases |pieces|
  {
    if pieces != [] {
      NonEmptyOfNonEmpty(pieces[1..]);
      assert [pieces[0]] + pieces[1..] == pieces;
    }
  }

  /** `requirements.split(',').map(req => req.trim()).filter(req =>
      req.length > 0)`: no requirement is empty, holds a comma, or starts or
      ends with white space, and there are at most one more than commas. */
  function ParseRequirements(input: string): (reqs: seq<string>)
    ensures |reqs| <= CountOf(input, ',') + 1
    ensures forall i :: 0 <= i < |reqs| ==> reqs[i] != [] && ',' !in reqs[i] && IsTrimmed(reqs[i])
  {
    var pieces := Split(input, ',');
    var trimmed := TrimAll(pieces);
    assert forall i :: 0 <= i < |trimmed| ==> ',' !in trimmed[i] && IsTrimmed(trimmed[i]);
    NonEmpty(trimmed)
  }

  /** Parsing keeps the order of the input: the requirements of two fields
      joined by a comma are those of the first followed by those of the
      second. */
  lemma ParseRequirementsAppend(a: string, b: string)
    ensures ParseRequirements(a + [','] + b) == ParseRequirements(a) + ParseRequirements(b)
  {
    var p, q := Split(a, ','), Split(b, ',');
    SplitAround(a, b, ',');
    TrimAllAppend(p, q);
    NonEmptyAppend(TrimAll(p), TrimAll(q));
  }

  /** A field without commas yields its trimmed text as the one
      requirement, or nothing when it is blank. With
      `ParseRequirementsAppend` this fixes the parse of every field: the
      trimmed non-blank pieces between commas, in order. */
  lemma ParseRequirementsPiece(s: string)
    requires ',' !in s
    ensures ParseRequirements(s) == if AllSpace(s) then [] else [Trim(s)]
  {
    SplitWithout(s, ',');
    assert TrimAll([s]) == [Trim(s)];
  }

  lemma {:induction false} TrimAllAppend(p: seq<string>, q: seq<string>)
    ensures TrimAll(p + q) == TrimAll(p) + TrimAll(q)
    decreases |p|
  {
    if p == [] {
      assert p + q == q;
    } else {
      assert (p + q)[1..] == p[1..] + q;
      TrimAllAppend(p[1..], q);
    }
  }

  /** Requirements that are non-empty, comma-free and trimmed survive a
      round trip through the comma-separated field. */
  lemma ParseRequirementsJoin(reqs: seq<string>)
    requires |reqs| > 0
    requires forall i :: 0 <= i < |reqs| ==> reqs[i] != [] && ',' !in reqs[i] && IsTrimmed(reqs[i])
    ensures ParseRequirements(Join(reqs, ',')) == reqs
  {
    SplitJoin(reqs, ',');
    forall i | 0 <= i < |reqs| ensures Trim(reqs[i]) == reqs[i] {
      TrimTrimmed(reqs[i]);
    }
    assert TrimAll(reqs) == reqs;
    NonEmptyOfNonEmpty(reqs);
  }

  /** A field holding only white space and commas yields no requirement. */
  lemma BlankFieldHasNoRequirements(input: string)
    requires forall i :: 0 <= i < |input| ==> input[i] == ',' || IsSpace(input[i])
    ensures ParseRequirements(input) == []
  {
    var pieces := Split(input, ',');
    forall i | 0 <= i < |pieces| ensures Trim(pieces[i]) == [] {
      PiecesOfBlank(input, i);
    }
    var trimmed := TrimAll(pieces);
    NonEmptyOfEmpty(trimmed);
  }

  lemma {:induction false} PiecesOfBlank(input: string, i: nat)
    requires forall k :: 0 <= k < |input| ==> input[k] == ',' || IsSpace(input[k])
    requires i < |Split(input, ',')|
    ensures AllSpace(Split(input, ',')[i])
    decreases |input|
  {
    if input != [] {
      var rest := Split(input[1..], ',');
      if input[0] == ',' {
        if i > 0 { PiecesOfBlank(input[1..], i - 1); }
      } else if i == 0 {
        PiecesOfBlank(input[1..], 0);
      } else {
        PiecesOfBlank(input[1..], i);
      }
    }
  }

  lemma {:induction false} NonEmptyOfEmpty(pieces: seq<string>)
    requires forall i :: 0 <= i < |pieces| ==> pieces[i] == []
    ensures NonEmpty(pieces) == []
    decreases |pieces|
  {
    if pieces != [] {
      NonEmptyOfEmpty(pieces[1..]);
    }
  }

  /** The template's text around the two copies of the title and the
      description. */
  const ENHANCED_HEAD := "\U{1F680} Exciting Opportunity: "
  const ENHANCED_SEEKING := "\n\nWe are seeking a talented "
  const ENHANCED_ROLE :=
    " to join our dynamic team. This role offers the perfect blend of challenge and growth "
    + "opportunities in a collaborative environment.\n\n\U{1F3AF} What You'll Do:\n"
  const ENHANCED_TAIL :=
    "\n\n\U{1F4BC} What We Offer:\n"
    + "\U{2022} Competitive salary and comprehensive benefits package\n"
    + "\U{2022} Flexible work arrangements and remote-friendly culture\n"
    + "\U{2022} Professional development opportunities and learning stipend\n"
    + "\U{2022} Collaborative team environment with growth potential\n"
    + "\U{2022} Modern tools and technology stack\n"
    + "\U{2022} Health, dental, and vision insurance\n"
    + "\U{2022} Generous PTO and work-life balance focus\n\n"
    + "\U{1F31F} Why Join Us:\n"
    + "Be part of a forward-thinking organization that values innovation, diversity, and professional growth. "
    + "We're committed to creating an inclusive workplace where every team member can thrive and make a meaningful impact.\n\n"
    + "Ready to take your career to the next level? We'd love to hear from you!"

  /** The template's visible text: the head, then the title, the
      sentence naming the title again, the description, and the fixed
      closing sections. */
  function Enhanced(title: string, description: string): string {
    ENHANCED_HEAD + Body(title, description) + ENHANCED_TAIL
  }

  function Body(title: string, description: string): string {
    title + (Pitch(title) + description)
  }

  function Pitch(title: string): string {
    ENHANCED_SEEKING + title + ENHANCED_ROLE
  }

  lemma EnhancedEnds()
    ensures ENHANCED_HEAD != [] && !IsSpace(ENHANCED_HEAD[0])
    ensures ENHANCED_TAIL != [] && !IsSpace(ENHANCED_TAIL[|ENHANCED_TAIL| - 1])
  {
  }

  /** The visible text is already trimmed and keeps the title and the
      description verbatim. */
  lemma EnhancedShape(title: string, description: string)
    ensures IsTrimmed(Enhanced(title, description))
    ensures Contains(Enhanced(title, description), title)
    ensures Contains(Enhanced(title, description), description)
  {
    EnhancedEnds();
    var body := Body(title, description);
    Framed(ENHANCED_HEAD, body, ENHANCED_TAIL);
    OccursPrefix(title, Pitch(title) + description);
    OccursWithin(ENHANCED_HEAD, body, ENHANCED_TAIL, title, 0);
    OccursInMiddle(title, Pitch(title), description);
    OccursWithin(ENHANCED_HEAD, body, ENHANCED_TAIL, description, |title| + |Pitch(title)|);
  }

  /** The page's local `enhanceJobDescription(title, description)`, awaited:
      the template (a line break, the visible text, a line break and four
      spaces of indentation), trimmed, which is exactly the visible text. */
  method EnhanceJobDescription(title: string, description: string) returns (enhanced: string)
    ensures enhanced == Enhanced(title, description)
  {
    EnhancedShape(title, description);
    TrimPadded("\n", Enhanced(title, description), "\n    ");
    enhanced := Trim("\n" + Enhanced(title, description) + "\n    ");
  }

  /** What the jobs insert returned: the new row's id, or an error whose
      message is present when it is an `Error`. */
  datatype InsertOutcome = Inserted(id: string) | Rejected(message: Option<string>)

  const POST_FAILED := "Failed to post job"

  /** The form's five text fields. */
  datatype Form = Form(title: string, description: string, requirements: string, salaryRange: string, location: string)

  const BLANK_FORM := Form("", "", "", "", "")

  /** The job row the page sends for a signed-in employer: it keeps the
      employer and the title, lists at most one requirement more than the
      field has commas, and `boosted` takes the column's default. */
  function JobRow(employerId: string, form: Form): (job: Job)
    ensures job.employerId == employerId && job.title == form.title && !job.boosted
    ensures job.requirements.Some? && |job.requirements.value| <= CountOf(form.requirements, ',') + 1
  {
    Job(employerId, form.title, Enhanced(form.title, form.description),
        Some(ParseRequirements(form.requirements)), form.salaryRange, form.location, false)
  }

  /** A posted row names the employer, carries a trimmed description that
      keeps the form's title and description, and lists only non-empty,
      trimmed, comma-free requirements; it is never posted boosted. */
  lemma PostedRowShape(employerId: string, form: Form)
    ensures var job := JobRow(employerId, form);
      && job.employerId == employerId && !job.boosted
      && IsTrimmed(job.description)
      && Contains(job.description, form.title) && Contains(job.description, form.description)
      && job.requirements.Some?
      && forall i :: 0 <= i < |job.requirements.value| ==>
           var r := job.requirements.value[i]; r != [] && ',' !in r && IsTrimmed(r)
  {
    EnhancedShape(form.title, form.description);
  }

  /** The part of `handleSubmit` that builds the row: the description is
      enhanced and the requirements field parsed. */
  method BuildJob(employerId: string, form: Form) returns (job: Job)
    ensures job == JobRow(employerId, form)
  {
    var enhanced := EnhanceJobDescription(form.title, form.description);
    var requirements := ParseRequirements(form.requirements);
    job := Job(employerId, form.title, enhanced, Some(requirements), form.salaryRange, form.location, false);
  }

  /** The page's form and status state. */
  class PostJobPage {
    var form: Form
    var loading: bool
    var success: bool
    var error: string
    var enhancedDescription: string
    var postedJobId: string

    constructor ()
      ensures form == BLANK_FORM
      ensures !loading && !success && error == "" && enhancedDescription == "" && postedJobId == ""
    {
      form := BLANK_FORM;
      loading, success, error, enhancedDescription, postedJobId := false, false, "", "", "";
    }

    /** `handleSubmit`: `row` is the job row the page sends, and `outcome`
        what the store answers. Without a signed-in user nothing changes;
        otherwise the enhanced description is shown and loading ends. */
    method HandleSubmit(signedIn: bool, userId: string, outcome: InsertOutcome) returns (row: Option<Job>)
      modifies this
      ensures !signedIn ==>
        && row == None && form == old(form) && loading == old(loading) && success == old(success)
        && error == old(error) && enhancedDescription == old(enhancedDescription) && postedJobId == old(postedJobId)
      ensures signedIn ==>
        && row == Some(JobRow(userId, old(form)))
        && enhancedDescription == row.value.description
        && !loading
        && Settled(old(form), old(postedJobId), outcome)
    {
      if !signedIn {
        return None;
      }
      var job := BuildJob(userId, form);
      loading, error, success := true, "", false;
      enhancedDescription := job.description;
      row := Some(job);
      Settle(outcome);
      loading := false;
    }

    /** How the insert's answer leaves the page: a new id is recorded and
        the form cleared, or the error is shown and the form kept. */
    ghost predicate Settled(form0: Form, postedJobId0: string, outcome: InsertOutcome)
      reads this
    {
      && (outcome.Inserted? ==> success && error == "" && postedJobId == outcome.id && form == BLANK_FORM)
      && (outcome.Rejected? ==>
            && !success && error == ErrorText(outcome.message, POST_FAILED)
            && postedJobId == postedJobId0 && form == form0)
    }

    /** The `try` block's tail and the `catch` block of `handleSubmit`. */
    method Settle(outcome: InsertOutcome)
      requires !success && error == ""
      modifies this
      ensures Settled(old(form), old(postedJobId), outcome)
      ensures loading == old(loading) && enhancedDescription == old(enhancedDescription)
    {
      match outcome {
        case Rejected(message) =>
          error := ErrorText(message, POST_FAILED);
        case Inserted(id) =>
          postedJobId, success := id, true;
          form := BLANK_FORM;
      }
    }
  }
}
