/** The resume upload page: the file-type gate on the chosen file, and the
    keyword parser that fills in defaults when it finds nothing. */
module UploadResume {
  import opened Store
  import opened Text
  import opened Extraction

  /** The chosen file, as far as the page inspects it. */
  datatype FileInfo = FileInfo(name: string, mimeType: string)

  const PDF := "application/pdf"
  const DOCX := "application/vnd.openxmlformats-officedocument.wordprocessingml.document"
  const VALID_TYPES := [PDF, DOCX]
  const WRONG_TYPE := "Please upload a PDF or DOCX file"

  /** The page's file and error state. */
  class UploadResumePage {
    var file: Option<FileInfo>
    var error: string

    constructor ()
      ensures file == None && error == ""
    {
      file, error := None, "";
    }

    /** `handleFileChange`: `selected` is the first chosen file, if any. A
        PDF or DOCX file is taken and the error cleared; any other file is
        refused, clearing the file; no selection changes nothing. */
    method HandleFileChange(selected: Option<FileInfo>)
      modifies this
      ensures selected.None? ==> file == old(file) && error == old(error)
      ensures selected.Some? && (selected.value.mimeType == PDF || selected.value.mimeType == DOCX) ==>
        file == selected && error == ""
      ensures selected.Some? && selected.value.mimeType != PDF && selected.value.mimeType != DOCX ==>
        file == None && error == WRONG_TYPE
    {
      if selected.Some? {
        if selected.value.mimeType in VALID_TYPES {
          file := selected;
          error := "";
        } else {
          error := WRONG_TYPE;
          file := None;
        }
      }
    }
  }

  const SKILL_KEYWORDS := [
    "JavaScript", "Python", "React", "Node.js", "SQL", "AWS", "Docker",
    "Kubernetes", "TypeScript", "Vue", "Angular", "MongoDB", "PostgreSQL",
    "Machine Learning", "Data Analysis", "Project Management", "Agile"]

  const DEFAULT_SKILLS := ["Communication", "Problem Solving", "Team Work"]
  const DEFAULT_EXPERIENCE := ["Professional Experience", "Project Leadership"]
  const MATCHES_PER_PATTERN := 5
  const MAX_SKILLS := 10
  const MAX_EXPERIENCE := 8

  function OrDefault(xs: seq<string>, defaults: seq<string>): seq<string> {
    if xs == [] then defaults else xs
  }

  /** `parseResume(fileContent)`, where `patternMatches[i]` is what
      `fileContent.match` returned for the i-th experience pattern. */
  method ParseResume(fileContent: string, patternMatches: seq<seq<string>>) returns (parsed: ParsedResume)
    ensures parsed.skills == Take(OrDefault(KeywordsIn(fileContent, SKILL_KEYWORDS), DEFAULT_SKILLS), MAX_SKILLS)
    ensures parsed.experience ==
      Take(OrDefault(Harvest(patternMatches, MATCHES_PER_PATTERN), DEFAULT_EXPERIENCE), MAX_EXPERIENCE)
  {
    var skills := SpotKeywords(fileContent, SKILL_KEYWORDS);
    var experience := HarvestMatches(patternMatches, MATCHES_PER_PATTERN);
    if |skills| == 0 {
      skills := skills + DEFAULT_SKILLS;
    }
    if |experience| == 0 {
      experience := experience + DEFAULT_EXPERIENCE;
    }
    parsed := ParsedResume(Take(skills, MAX_SKILLS), Take(experience, MAX_EXPERIENCE));
  }

  /** No keyword is listed twice. */
  lemma SkillKeywordsDistinct()
    ensures Distinct(SKILL_KEYWORDS)
  {
  }

  /** Parsed skills are never empty, number at most ten and repeat nothing:
      the defaults exactly when no keyword occurs, otherwise occurring
      keywords; when no more than ten occur, every one of them is kept. */
  lemma ParsedSkills(fileContent: string)
    ensures var skills := Take(OrDefault(KeywordsIn(fileContent, SKILL_KEYWORDS), DEFAULT_SKILLS), MAX_SKILLS);
      && 1 <= |skills| <= MAX_SKILLS && Distinct(skills)
      && (skills == DEFAULT_SKILLS <==>
            forall i :: 0 <= i < |SKILL_KEYWORDS| ==> !Contains(Lower(fileContent), Lower(SKILL_KEYWORDS[i])))
      && (forall i :: 0 <= i < |skills| && skills != DEFAULT_SKILLS ==>
            skills[i] in SKILL_KEYWORDS && Contains(Lower(fileContent), Lower(skills[i])))
      && (|KeywordsIn(fileContent, SKILL_KEYWORDS)| <= MAX_SKILLS ==>
            forall i :: 0 <= i < |SKILL_KEYWORDS| && Contains(Lower(fileContent), Lower(SKILL_KEYWORDS[i])) ==>
              SKILL_KEYWORDS[i] in skills)
  {
    var found := KeywordsIn(fileContent, SKILL_KEYWORDS);
    SkillKeywordsDistinct();
    KeywordsInDistinct(fileContent, SKILL_KEYWORDS);
    TakeDistinct(OrDefault(found, DEFAULT_SKILLS), MAX_SKILLS);
    if found != [] {
      assert found[0] in SKILL_KEYWORDS;
      assert found != DEFAULT_SKILLS by {
        assert DEFAULT_SKILLS[0] !in SKILL_KEYWORDS;
      }
    }
  }

  /** Parsed experience is never empty and has at most eight entries: the
      first five matches of each pattern in pattern order, or the two
      defaults when no pattern matched. */
  lemma ParsedExperience(patternMatches: seq<seq<string>>)
    ensures var experience := Take(OrDefault(Harvest(patternMatches, MATCHES_PER_PATTERN), DEFAULT_EXPERIENCE), MAX_EXPERIENCE);
      && 1 <= |experience| <= MAX_EXPERIENCE
      && ((forall i :: 0 <= i < |patternMatches| ==> patternMatches[i] == []) ==> experience == DEFAULT_EXPERIENCE)
      && ((exists i :: 0 <= i < |patternMatches| && patternMatches[i] != []) ==>
            experience == Take(Harvest(patternMatches, MATCHES_PER_PATTERN), MAX_EXPERIENCE))
  {
    if forall i :: 0 <= i < |patternMatches| ==> patternMatches[i] == [] {
      HarvestOfEmpty(patternMatches, MATCHES_PER_PATTERN);
    } else {
      var i :| 0 <= i < |patternMatches| && patternMatches[i] != [];
      HarvestKeepsLeading(patternMatches, MATCHES_PER_PATTERN, i, 0);
    }
  }
}
