/**
 * The local part of `generate_interview_questions`: the experience and
 * projects summaries it prints, the skills summary it computes but never
 * uses, the experience tier, and the arguments it hands to the question
 * prompt, each with its fallback text.
 */
module Summaries {
  import opened Wrappers
  import opened PyStr
  import opened ResumeData
  import opened Experience

  const Separator := ", "

  /** `exp['Role']` and `exp['Company']` do not raise: every entry has both keys. */
  predicate HasRoleAndCompany(es: seq<Entry>) {
    forall k :: 0 <= k < |es| ==> "Role" in es[k] && "Company" in es[k]
  }

  predicate DurationsAreText(es: seq<Entry>) {
    forall k :: 0 <= k < |es| ==> HasTextDuration(es[k])
  }

  // ---------------------------------------------------------------------
  // The summaries of lines 77, 81 and 85

  /** The items of the printed experience summary: "<Role> at <Company>". */
  function RoleAtCompany(es: seq<Entry>): seq<string>
    requires HasRoleAndCompany(es)
  {
    seq(|es|, k requires 0 <= k < |es| => Show(es[k]["Role"]) + " at " + Show(es[k]["Company"]))
  }

  /** `experience_text`: the joined items, or "Not available" for an empty list. */
  function ExperienceText(es: seq<Entry>): string
    requires HasRoleAndCompany(es)
  {
    if es != [] then Join(Separator, RoleAtCompany(es)) else "Not available"
  }

  /** `skills_text`: the joined skills, or "Not available" when the value is empty.
      It is computed and never used: the next line prints the raw skills value. */
  function SkillsText(skills: Field): string {
    if Truthy(skills) then JoinField(Separator, skills) else "Not available"
  }

  /** The technologies of one project as printed: a list is joined, anything else shown as is. */
  function ProjectTechnologies(p: Entry): string {
    if "Technologies Used" in p && p["Technologies Used"].Items? then Join(Separator, p["Technologies Used"].items)
    else Show(Get(p, "Technologies Used", Text("Not specified")))
  }

  /** The items of the printed projects summary: "<Project Name> - <technologies>". */
  function ProjectLines(ps: seq<Entry>): seq<string>
  {
    seq(|ps|, k requires 0 <= k < |ps| => Show(Get(ps[k], "Project Name", Text("Unknown"))) + " - " + ProjectTechnologies(ps[k]))
  }

  /** `projects_text`: the joined project lines, or "Not available" for an empty list. */
  function ProjectsText(ps: seq<Entry>): string {
    if ps != [] then Join(Separator, ProjectLines(ps)) else "Not available"
  }

  // ---------------------------------------------------------------------
  // The prompt arguments

  /** Python's `a or b` on strings. */
  function Or(a: string, b: string): string {
    if a != "" then a else b
  }

  /** The items of the experience argument, with "Unknown Role" and "Unknown Company" for missing fields. */
  function ExperienceItems(es: seq<Entry>): seq<string>
  {
    seq(|es|, k requires 0 <= k < |es| =>
      Show(Get(es[k], "Role", Text("Unknown Role"))) + " at " + Show(Get(es[k], "Company", Text("Unknown Company"))))
  }

  /** The items of the projects argument; note the key is "Technologies used" here. */
  function ProjectItems(ps: seq<Entry>): seq<string>
  {
    seq(|ps|, k requires 0 <= k < |ps| =>
      Show(Get(ps[k], "Project Name", Text("Unnamed Project"))) + " - " + Show(Get(ps[k], "Technologies used", Text("Unknown Technologies"))))
  }

  /** The values passed to the question chain. */
  datatype QuestionArgs = QuestionArgs(
    candidateName: string,
    jobDescription: string,
    skills: string,
    experience: string,
    projects: string,
    experienceLevel: string)

  function WorkExperience(r: Resume): seq<Entry> {
    r.workExperience.GetOr([])
  }

  function Projects(r: Resume): seq<Entry> {
    r.projects.GetOr([])
  }

  function Skills(r: Resume): Field {
    r.skills.GetOr(Items([]))
  }

  function SkillsArg(skills: Field): string {
    Or(JoinField(Separator, skills), "No skills listed")
  }

  function ExperienceArg(es: seq<Entry>): string {
    Or(Join(Separator, ExperienceItems(es)), "No work experience listed")
  }

  function ProjectsArg(ps: seq<Entry>): string {
    Or(Join(Separator, ProjectItems(ps)), "No projects listed")
  }

  /** The arguments of the question prompt for a resume. */
  function QuestionPromptArgs(r: Resume): QuestionArgs
    requires DurationsAreText(WorkExperience(r))
  {
    QuestionArgs(
      r.fullName.GetOr("Unknown"),
      r.jobDescription.GetOr("Not specified"),
      SkillsArg(Skills(r)),
      ExperienceArg(WorkExperience(r)),
      ProjectsArg(Projects(r)),
      Label(TierOf(TotalExperience(WorkExperience(r)))))
  }

  /** What the function computes before it calls the language model: the total, the printed
      experience and projects summaries, the unused `skills_text`, and the prompt arguments. */
  datatype Prepared = Prepared(
    totalExperience: nat,
    experienceText: string,
    skillsText: string,
    projectsText: string,
    args: QuestionArgs)

  /** The local steps of `generate_interview_questions`, in the source's order. */
  method PrepareQuestions(resume: Resume) returns (p: Prepared)
    requires DurationsAreText(WorkExperience(resume))
    requires HasRoleAndCompany(WorkExperience(resume))
    ensures p.totalExperience == TotalExperience(WorkExperience(resume))
    ensures p.experienceText == ExperienceText(WorkExperience(resume))
    ensures p.skillsText == SkillsText(Skills(resume))
    ensures p.projectsText == ProjectsText(Projects(resume))
    ensures p.args == QuestionPromptArgs(resume)
  {
    var experienceList := WorkExperience(resume);
    var totalExperience := CalculateExperience(experienceList);
    var experienceText := ExperienceText(experienceList);
    var skills := Skills(resume);
    var skillsText := SkillsText(skills);
    var projects := Projects(resume);
    var projectsText := ProjectsText(projects);
    var experienceCategory;
    if totalExperience <= 1 {
      experienceCategory := "0-1 years";
    } else if totalExperience <= 10 {
      experienceCategory := "2-10 years";
    } else {
      experienceCategory := "10+ years";
    }
    var args := QuestionArgs(
      resume.fullName.GetOr("Unknown"),
      resume.jobDescription.GetOr("Not specified"),
      SkillsArg(skills),
      ExperienceArg(experienceList),
      ProjectsArg(projects),
      experienceCategory);
    p := Prepared(totalExperience, experienceText, skillsText, projectsText, args);
  }

  // ---------------------------------------------------------------------
  // Properties of the summaries

  /** Each summary of lines 77, 81 and 85 is "Not available" for an empty or missing value and
      the joined items otherwise. */
  lemma PrintedSummaryFallbacks(r: Resume)
    requires HasRoleAndCompany(WorkExperience(r))
    ensures WorkExperience(r) == [] ==> ExperienceText(WorkExperience(r)) == "Not available"
    ensures WorkExperience(r) != [] ==> ExperienceText(WorkExperience(r)) == Join(Separator, RoleAtCompany(WorkExperience(r)))
    ensures !Truthy(Skills(r)) ==> SkillsText(Skills(r)) == "Not available"
    ensures Truthy(Skills(r)) ==> SkillsText(Skills(r)) == JoinField(Separator, Skills(r))
    ensures r.skills == None ==> SkillsText(Skills(r)) == "Not available"
    ensures Projects(r) == [] ==> ProjectsText(Projects(r)) == "Not available"
    ensures Projects(r) != [] ==> ProjectsText(Projects(r)) == Join(Separator, ProjectLines(Projects(r)))
    ensures r.projects == None ==> ProjectsText(Projects(r)) == "Not available"
  {
  }

  /** The skills argument falls back exactly when the joined skills are empty: no skills,
      an empty list or string, or the one-item list [""]; otherwise it is the joined skills. */
  lemma SkillsArgFallback(skills: Field)
    ensures skills in {Items([]), Items([""]), Text("")} ==> SkillsArg(skills) == "No skills listed"
    ensures skills !in {Items([]), Items([""]), Text("")} ==> SkillsArg(skills) == JoinField(Separator, skills) != ""
  {
    match skills
    case Items(xs) =>
      JoinEmptyIff(Separator, xs);
    case Text(s) =>
      JoinEmptyIff(Separator, Chars(s));
      if s != "" {
        assert |Chars(s)[0]| == 1;
      }
  }

  /** A joined list of skills separates the items with ", "; a string separates its characters. */
  lemma SkillsOfStringAreCharacters(s: string)
    requires |s| >= 2
    ensures SkillsArg(Text(s)) == [s[0]] + Separator + Join(Separator, Chars(s)[1..])
  {
  }

  /** The experience argument: joined items for a non-empty list, the fallback for an empty one. */
  lemma ExperienceArgShape(es: seq<Entry>)
    ensures es == [] ==> ExperienceArg(es) == "No work experience listed"
    ensures es != [] ==> ExperienceArg(es) == Join(Separator, ExperienceItems(es))
  {
    if es != [] {
      JoinStartsWithFirst(Separator, ExperienceItems(es));
      assert |ExperienceItems(es)[0]| >= 4;
    }
  }

  /** The projects argument: joined items for a non-empty list, the fallback for an empty one. */
  lemma ProjectsArgShape(ps: seq<Entry>)
    ensures ps == [] ==> ProjectsArg(ps) == "No projects listed"
    ensures ps != [] ==> ProjectsArg(ps) == Join(Separator, ProjectItems(ps))
  {
    if ps != [] {
      JoinStartsWithFirst(Separator, ProjectItems(ps));
      assert |ProjectItems(ps)[0]| >= 3;
    }
  }

  /** Where the printed experience summary can be computed at all (every entry has a Role and
      a Company), the prompt's experience argument agrees with it on a non-empty list, so the
      "Unknown Role"/"Unknown Company" substitutes never appear in a prompt. */
  lemma ExperienceSummariesAgree(es: seq<Entry>)
    requires HasRoleAndCompany(es) && es != []
    ensures ExperienceArg(es) == ExperienceText(es)
  {
    ExperienceArgShape(es);
    assert ExperienceItems(es) == RoleAtCompany(es);
  }

  /** The printed project summary reads "Technologies Used" while the prompt reads
      "Technologies used": a project listing its technologies under the second key prints
      "Not specified" but sends the list, shown as a Python list, to the prompt. */
  lemma TechnologiesKeyMismatch(p: Entry, name: string, technologies: seq<string>)
    requires "Project Name" in p && p["Project Name"] == Text(name)
    requires "Technologies used" in p && p["Technologies used"] == Items(technologies)
    requires "Technologies Used" !in p
    ensures ProjectsText([p]) == name + " - " + "Not specified"
    ensures ProjectsArg([p]) == name + " - " + Show(Items(technologies))
  {
    var lines := ProjectLines([p]);
    assert lines[0] == name + " - " + "Not specified";
    assert lines == [name + " - " + "Not specified"];
    var items := ProjectItems([p]);
    assert items[0] == name + " - " + Show(Get(p, "Technologies used", Text("Unknown Technologies")));
    assert items == [name + " - " + Show(Items(technologies))];
  }

  /** For instance: a project "Bot" with technologies ["Python"]. */
  lemma TechnologiesKeyMismatchExample(p: Entry)
    requires p == map["Project Name" := Text("Bot"), "Technologies used" := Items(["Python"])]
    ensures ProjectsText([p]) == "Bot - Not specified"
    ensures ProjectsArg([p]) == "Bot - ['Python']"
  {
    assert "Technologies Used" != "Technologies used" && "Technologies Used" != "Project Name";
    assert "Technologies Used" !in p;
    TechnologiesKeyMismatch(p, "Bot", ["Python"]);
    ShowOneItemList("Python");
    assert "Bot" + " - " + "Not specified" == "Bot - Not specified";
    assert "Bot" + " - " + "['Python']" == "Bot - ['Python']";
  }

  /** A one-item list is shown with brackets and quotes. */
  lemma ShowOneItemList(x: string)
    ensures Show(Items([x])) == "['" + x + "']"
  {
    var q := Quoted([x]);
    assert q == ["'" + x + "'"];
  }

  /** The unused `skills_text` and the skills argument differ on the list [""]: the first is
      empty, the second falls back. */
  lemma SkillsSummariesDisagreeOnEmptyItem()
    ensures SkillsText(Items([""])) == ""
    ensures SkillsArg(Items([""])) == "No skills listed"
  {
  }

  /** The experience level handed to the prompt is the tier of the summed durations. */
  lemma PromptLevelIsTier(r: Resume)
    requires DurationsAreText(WorkExperience(r))
    ensures QuestionPromptArgs(r).experienceLevel in {"0-1 years", "2-10 years", "10+ years"}
    ensures TotalExperience(WorkExperience(r)) <= 1 ==> QuestionPromptArgs(r).experienceLevel == "0-1 years"
    ensures 1 < TotalExperience(WorkExperience(r)) <= 10 ==> QuestionPromptArgs(r).experienceLevel == "2-10 years"
    ensures 10 < TotalExperience(WorkExperience(r)) ==> QuestionPromptArgs(r).experienceLevel == "10+ years"
  {
  }
}
