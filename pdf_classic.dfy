/** The "classic" PDF template (`ClassicTraditionalExporter`): its own header,
  * a spacer, then introduction, education, work, projects and skills, with
  * section titles in `Heading2`. Every item carries a date line, even when
  * it has no dates at all. */
module PdfClassic {
  import opened Text
  import opened Resume
  import opened PdfElements

  /** The contact fields of the classic header, each behind its label. */
  function Contacts(v: View): (r: seq<String>)
    ensures |r| <= 3
    ensures r == [] <==> v.phone == "" && v.email == "" && v.location == ""
  {
    (if v.phone != "" then ["电话: " + v.phone] else [])
    + (if v.email != "" then ["邮箱: " + v.email] else [])
    + (if v.location != "" then ["地点: " + v.location] else [])
  }

  /** `add_header`: the name, the job title, the joined contacts, a spacer
    * and a rule. */
  function Header(v: View): (r: seq<Element>)
    ensures 2 <= |r| <= 5
  {
    When(v.name != "", Para(ClassicName, v.name))
    + When(v.jobTitle != "", Para(ClassicTitle, v.jobTitle))
    + When(Contacts(v) != [], Para(ResumeMeta, Join(" | ", Contacts(v))))
    + [Gap, Rule]
  }

  /** The header opens with the name, when there is one, and the contact line
    * sits just above the closing gap and rule. */
  lemma HeaderShows(v: View)
    ensures v.name != "" ==> Header(v)[0] == Para(ClassicName, v.name)
    ensures Contacts(v) != [] ==>
      |Header(v)| >= 3 && Header(v)[|Header(v)| - 3] == Para(ResumeMeta, Join(" | ", Contacts(v)))
  {
  }

  lemma HeaderTexts(v: View, style: Style)
    requires style != ClassicName && style != ClassicTitle && style != ResumeMeta
    ensures Texts(Header(v), style) == []
  {
    var a := When(v.name != "", Para(ClassicName, v.name));
    var b := When(v.jobTitle != "", Para(ClassicTitle, v.jobTitle));
    var c := When(Contacts(v) != [], Para(ResumeMeta, Join(" | ", Contacts(v))));
    TextsWhen(v.name != "", Para(ClassicName, v.name), style);
    TextsWhen(v.jobTitle != "", Para(ClassicTitle, v.jobTitle), style);
    TextsWhen(Contacts(v) != [], Para(ResumeMeta, Join(" | ", Contacts(v))), style);
    TextsPair(Gap, Rule, style);
    TextsAppend(a, b, style);
    TextsAppend(a + b, c, style);
    TextsAppend(a + b + c, [Gap, Rule], style);
  }

  /** `add_introduction` */
  function Introduction(intro: String): seq<Element> {
    [Para(Heading2, "个人概述"), Para(Normal, Strip(intro)), Gap]
  }

  /** The date line of an item. It is never empty (it holds at least the
    * separator), so every item shows it. */
  function DateLine(start: String, end: String): (r: Element)
    ensures r.Para? && r.style == NormalSmall && r.text != ""
  {
    Para(NormalSmall, DateRange(start, end, " - "))
  }

  /** An item with neither date still shows the bare separator. */
  lemma NoDatesShowSeparator()
    ensures DateLine("", "") == Para(NormalSmall, " - ")
  {
  }

  /** `format_edu_item`: the school followed by degree and major, then the dates. */
  function EducationItem(e: EducationEntry): seq<Element> {
    var degreeMajor := IfSet(e.degree.GetOr("")) + IfSet(e.major.GetOr(""));
    When(e.school.GetOr("") != "", Para(Bold, e.school.GetOr("") + " " + Join(" | ", degreeMajor)))
    + [DateLine(e.startDate.GetOr(""), e.endDate.GetOr(""))]
  }

  /** `format_work_item`: the company (with the position when there is one),
    * the dates, and the stripped description. */
  function WorkItem(e: WorkEntry): seq<Element> {
    var company := e.company.GetOr("");
    var position := e.position.GetOr("");
    When(company != "", Para(Bold, if position != "" then company + " | " + position else company))
    + [DateLine(e.startDate.GetOr(""), e.endDate.GetOr(""))]
    + When(e.description.GetOr("") != "", Para(Normal, Strip(e.description.GetOr(""))))
  }

  /** `format_project_item`: the name (with the role in parentheses when there
    * is one), the dates, and the first 400 characters of the description. */
  function ProjectItem(p: ProjectEntry): seq<Element> {
    var name := p.name.GetOr("");
    var role := p.role.GetOr("");
    When(name != "", Para(Bold, if role != "" then name + " (" + role + ")" else name))
    + [DateLine(p.startDate.GetOr(""), p.endDate.GetOr(""))]
    + When(p.description.GetOr("") != "", Para(Normal, Take(p.description.GetOr(""), 400)))
  }

  /** Each item has exactly one small paragraph, its date line, and its
    * other paragraphs are bold or normal. */
  lemma ItemDates(e: EducationEntry, w: WorkEntry, p: ProjectEntry, style: Style)
    requires style != Bold && style != Normal
    ensures Texts(EducationItem(e), style) ==
      if style == NormalSmall then [DateRange(e.startDate.GetOr(""), e.endDate.GetOr(""), " - ")] else []
    ensures Texts(WorkItem(w), style) ==
      if style == NormalSmall then [DateRange(w.startDate.GetOr(""), w.endDate.GetOr(""), " - ")] else []
    ensures Texts(ProjectItem(p), style) ==
      if style == NormalSmall then [DateRange(p.startDate.GetOr(""), p.endDate.GetOr(""), " - ")] else []
  {
    EducationItemTexts(e, style);
    WorkItemTexts(w, style);
    ProjectItemTexts(p, style);
  }

  lemma EducationItemTexts(e: EducationEntry, style: Style)
    requires style != Bold
    ensures Texts(EducationItem(e), style) ==
      if style == NormalSmall then [DateRange(e.startDate.GetOr(""), e.endDate.GetOr(""), " - ")] else []
  {
    var degreeMajor := IfSet(e.degree.GetOr("")) + IfSet(e.major.GetOr(""));
    var head := Para(Bold, e.school.GetOr("") + " " + Join(" | ", degreeMajor));
    var date := DateLine(e.startDate.GetOr(""), e.endDate.GetOr(""));
    assert Texts(When(e.school.GetOr("") != "", head), style) == [] by {
      TextsWhen(e.school.GetOr("") != "", head, style);
    }
    TextsSingle(date, style);
    OnlyLastSpeaks(When(e.school.GetOr("") != "", head), [date], style);
  }

  lemma WorkItemTexts(e: WorkEntry, style: Style)
    requires style != Bold && style != Normal
    ensures Texts(WorkItem(e), style) ==
      if style == NormalSmall then [DateRange(e.startDate.GetOr(""), e.endDate.GetOr(""), " - ")] else []
  {
    var company := e.company.GetOr("");
    var position := e.position.GetOr("");
    var head := Para(Bold, if position != "" then company + " | " + position else company);
    var date := DateLine(e.startDate.GetOr(""), e.endDate.GetOr(""));
    var desc := Para(Normal, Strip(e.description.GetOr("")));
    assert Texts(When(company != "", head), style) == [] by {
      TextsWhen(company != "", head, style);
    }
    assert Texts(When(e.description.GetOr("") != "", desc), style) == [] by {
      TextsWhen(e.description.GetOr("") != "", desc, style);
    }
    TextsSingle(date, style);
    OnlyMiddleSpeaks(When(company != "", head), [date], When(e.description.GetOr("") != "", desc), style);
  }

  lemma ProjectItemTexts(p: ProjectEntry, style: Style)
    requires style != Bold && style != Normal
    ensures Texts(ProjectItem(p), style) ==
      if style == NormalSmall then [DateRange(p.startDate.GetOr(""), p.endDate.GetOr(""), " - ")] else []
  {
    var name := p.name.GetOr("");
    var role := p.role.GetOr("");
    var head := Para(Bold, if role != "" then name + " (" + role + ")" else name);
    var date := DateLine(p.startDate.GetOr(""), p.endDate.GetOr(""));
    var desc := Para(Normal, Take(p.description.GetOr(""), 400));
    assert Texts(When(name != "", head), style) == [] by {
      TextsWhen(name != "", head, style);
    }
    assert Texts(When(p.description.GetOr("") != "", desc), style) == [] by {
      TextsWhen(p.description.GetOr("") != "", desc, style);
    }
    TextsSingle(date, style);
    OnlyMiddleSpeaks(When(name != "", head), [date], When(p.description.GetOr("") != "", desc), style);
  }

  function EducationSection(xs: seq<EducationEntry>): seq<Element> {
    [Para(Heading2, "教育经历")] + Items(xs, EducationItem)
  }

  /** `add_education` */
  method AddEducation(xs: seq<EducationEntry>) returns (els: seq<Element>)
    ensures els == EducationSection(xs)
  {
    els := AppendItems([Para(Heading2, "教育经历")], xs, EducationItem);
  }

  function WorkSection(xs: seq<WorkEntry>): seq<Element> {
    [Para(Heading2, "工作经验")] + Items(xs, WorkItem)
  }

  /** `add_work_experience` */
  method AddWorkExperience(xs: seq<WorkEntry>) returns (els: seq<Element>)
    ensures els == WorkSection(xs)
  {
    els := AppendItems([Para(Heading2, "工作经验")], xs, WorkItem);
  }

  /** At most four projects are shown. */
  function ProjectSection(xs: seq<ProjectEntry>): seq<Element> {
    [Para(Heading2, "项目经验")] + Items(Take(xs, 4), ProjectItem)
  }

  /** `add_projects` */
  method AddProjects(xs: seq<ProjectEntry>) returns (els: seq<Element>)
    ensures els == ProjectSection(xs)
  {
    els := AppendItems([Para(Heading2, "项目经验")], Take(xs, 4), ProjectItem);
  }

  /** The skills, eight to a line, joined by " • ". */
  const SkillsPerLine := 8

  function SkillsSection(skills: seq<String>): seq<Element> {
    [Para(Heading2, "专业技能")] + ChunkLines(ChunksFrom(skills, 0, SkillsPerLine), " • ", Normal) + [Gap]
  }

  /** `add_skills` */
  method AddSkills(skills: seq<String>) returns (els: seq<Element>)
    ensures els == SkillsSection(skills)
  {
    els := AppendChunks([Para(Heading2, "专业技能")], skills, SkillsPerLine, " • ", Normal);
    els := els + [Gap];
  }

  /** Every skill is shown, `ceil(n / 8)` lines of at most eight, in order. */
  lemma SkillsAllShown(skills: seq<String>)
    ensures |ChunkLines(ChunksFrom(skills, 0, SkillsPerLine), " • ", Normal)| == (|skills| + 7) / 8
    ensures Concat(ChunksFrom(skills, 0, SkillsPerLine)) == skills
    ensures forall k :: 0 <= k < |ChunksFrom(skills, 0, SkillsPerLine)| ==>
              0 < |ChunksFrom(skills, 0, SkillsPerLine)[k]| <= 8
  {
    ChunksCount(skills, 0, SkillsPerLine);
    ChunksPartition(skills, 0, SkillsPerLine);
  }

  /** `build_content` after each of its steps. */
  function WithIntroduction(v: View): seq<Element> {
    Header(v) + [Gap] + Optional(v.selfIntroduction != "", Introduction(v.selfIntroduction))
  }

  function WithEducation(v: View): seq<Element> {
    WithIntroduction(v) + Optional(v.education != [], EducationSection(v.education))
  }

  function WithWork(v: View): seq<Element> {
    WithEducation(v) + Optional(v.workExperience != [], WorkSection(v.workExperience))
  }

  function WithProjects(v: View): seq<Element> {
    WithWork(v) + Optional(v.projectExperience != [], ProjectSection(v.projectExperience))
  }

  /** `build_content` as a value. */
  function Content(r: Record): seq<Element> {
    var v := Read(r);
    WithProjects(v) + Optional(v.skills != [], SkillsSection(v.skills))
  }

  /** `build_content` */
  method BuildContent(r: Record) returns (story: seq<Element>)
    ensures story == Content(r)
  {
    var v := Read(r);
    story := Header(v);
    story := story + [Gap];
    var before := story;
    if v.selfIntroduction != "" {
      story := story + Introduction(v.selfIntroduction);
    }
    ExtendIf(before, v.selfIntroduction != "", Introduction(v.selfIntroduction));
    assert story == WithIntroduction(v);
    before := story;
    if v.education != [] {
      var section := AddEducation(v.education);
      story := story + section;
    }
    ExtendIf(before, v.education != [], EducationSection(v.education));
    assert story == WithEducation(v);
    before := story;
    if v.workExperience != [] {
      var section := AddWorkExperience(v.workExperience);
      story := story + section;
    }
    ExtendIf(before, v.workExperience != [], WorkSection(v.workExperience));
    assert story == WithWork(v);
    before := story;
    if v.projectExperience != [] {
      var section := AddProjects(v.projectExperience);
      story := story + section;
    }
    ExtendIf(before, v.projectExperience != [], ProjectSection(v.projectExperience));
    assert story == WithProjects(v);
    before := story;
    if v.skills != [] {
      var section := AddSkills(v.skills);
      story := story + section;
    }
    ExtendIf(before, v.skills != [], SkillsSection(v.skills));
  }

  /** The section titles are those of the non-empty fields, in the order
    * introduction, education, work, projects, skills. */
  lemma SectionOrder(r: Record)
    ensures Texts(Content(r), Heading2) ==
      var v := Read(r);
      TitleIf(v.selfIntroduction != "", "个人概述")
      + TitleIf(v.education != [], "教育经历")
      + TitleIf(v.workExperience != [], "工作经验")
      + TitleIf(v.projectExperience != [], "项目经验")
      + TitleIf(v.skills != [], "专业技能")
  {
    var v := Read(r);
    TitlesWithProjects(v);
    SkillsTitle(v.skills);
    TitlesStep(WithProjects(v), v.skills != [], SkillsSection(v.skills), Heading2, "专业技能",
      TitleIf(v.selfIntroduction != "", "个人概述")
        + TitleIf(v.education != [], "教育经历")
        + TitleIf(v.workExperience != [], "工作经验")
        + TitleIf(v.projectExperience != [], "项目经验"));
  }

  lemma TitlesWithIntroduction(v: View)
    ensures Texts(WithIntroduction(v), Heading2) == TitleIf(v.selfIntroduction != "", "个人概述")
  {
    HeaderTexts(v, Heading2);
    TextsSingle(Gap, Heading2);
    TextsQuiet(Header(v), [Gap], Heading2);
    TextsPair(Para(Normal, Strip(v.selfIntroduction)), Gap, Heading2);
    TitledSection("个人概述", Heading2, [Para(Normal, Strip(v.selfIntroduction)), Gap]);
    assert [Para(Heading2, "个人概述")] + [Para(Normal, Strip(v.selfIntroduction)), Gap]
      == Introduction(v.selfIntroduction);
    TitlesStep(Header(v) + [Gap], v.selfIntroduction != "", Introduction(v.selfIntroduction), Heading2, "个人概述", []);
    assert [] + TitleIf(v.selfIntroduction != "", "个人概述") == TitleIf(v.selfIntroduction != "", "个人概述");
  }

  lemma TitlesWithEducation(v: View)
    ensures Texts(WithEducation(v), Heading2) ==
      TitleIf(v.selfIntroduction != "", "个人概述")
      + TitleIf(v.education != [], "教育经历")
  {
    TitlesWithIntroduction(v);
    forall e: EducationEntry ensures Texts(EducationItem(e), Heading2) == [] {
      EducationItemTexts(e, Heading2);
    }
    TextsOfItems(v.education, EducationItem, Heading2);
    TitledSection("教育经历", Heading2, Items(v.education, EducationItem));
    TitlesStep(WithIntroduction(v), v.education != [], EducationSection(v.education), Heading2, "教育经历",
      TitleIf(v.selfIntroduction != "", "个人概述"));
  }

  lemma TitlesWithWork(v: View)
    ensures Texts(WithWork(v), Heading2) ==
      TitleIf(v.selfIntroduction != "", "个人概述")
      + TitleIf(v.education != [], "教育经历")
      + TitleIf(v.workExperience != [], "工作经验")
  {
    TitlesWithEducation(v);
    forall e: WorkEntry ensures Texts(WorkItem(e), Heading2) == [] {
      WorkItemTexts(e, Heading2);
    }
    TextsOfItems(v.workExperience, WorkItem, Heading2);
    TitledSection("工作经验", Heading2, Items(v.workExperience, WorkItem));
    TitlesStep(WithEducation(v), v.workExperience != [], WorkSection(v.workExperience), Heading2, "工作经验",
      TitleIf(v.selfIntroduction != "", "个人概述")
        + TitleIf(v.education != [], "教育经历"));
  }

  lemma TitlesWithProjects(v: View)
    ensures Texts(WithProjects(v), Heading2) ==
      TitleIf(v.selfIntroduction != "", "个人概述")
      + TitleIf(v.education != [], "教育经历")
      + TitleIf(v.workExperience != [], "工作经验")
      + TitleIf(v.projectExperience != [], "项目经验")
  {
    TitlesWithWork(v);
    forall p: ProjectEntry ensures Texts(ProjectItem(p), Heading2) == [] {
      ProjectItemTexts(p, Heading2);
    }
    TextsOfItems(Take(v.projectExperience, 4), ProjectItem, Heading2);
    TitledSection("项目经验", Heading2, Items(Take(v.projectExperience, 4), ProjectItem));
    TitlesStep(WithWork(v), v.projectExperience != [], ProjectSection(v.projectExperience), Heading2, "项目经验",
      TitleIf(v.selfIntroduction != "", "个人概述")
        + TitleIf(v.education != [], "教育经历")
        + TitleIf(v.workExperience != [], "工作经验"));
  }

  lemma SkillsTitle(skills: seq<String>)
    ensures Texts(SkillsSection(skills), Heading2) == ["专业技能"]
  {
    var lines := ChunkLines(ChunksFrom(skills, 0, SkillsPerLine), " • ", Normal);
    TextsOfChunkLines(ChunksFrom(skills, 0, SkillsPerLine), " • ", Normal, Heading2);
    TitledSection("专业技能", Heading2, lines);
    TextsSingle(Gap, Heading2);
    TextsQuiet([Para(Heading2, "专业技能")] + lines, [Gap], Heading2);
  }
}
