/** The "modern" PDF template (`ModernMinimalExporter`): the base header, then
  * introduction, skills, work, projects, education, certificates and awards,
  * each only when its field is set, with section titles in `Heading2`. */
module PdfModern {
  import opened Wrappers
  import opened Text
  import opened Resume
  import opened PdfElements

  /** `add_introduction` */
  function Introduction(intro: String): seq<Element> {
    [Para(Heading2, "个人简介"), Para(Normal, Strip(intro)), Gap]
  }

  /** The skills line: all skills joined by " | " when there are at most ten,
    * else the first ten joined and "..." after them. */
  function SkillsText(skills: seq<String>): String {
    if |skills| <= 10 then Join(" | ", skills) else Join(" | ", skills[..10]) + "..."
  }

  /** Skills past the tenth never show: two long lists that agree on their
    * first ten entries give the same line, ending in "...". */
  lemma SkillsTextIgnoresTail(a: seq<String>, b: seq<String>)
    requires |a| > 10 && |b| > 10 && a[..10] == b[..10]
    ensures SkillsText(a) == SkillsText(b)
    ensures SkillsText(a)[|SkillsText(a)| - 3..] == "..."
  {
  }

  /** `add_skills` */
  function Skills(skills: seq<String>): seq<Element> {
    [Para(Heading2, "专业技能"), Para(Normal, SkillsText(skills)), Gap]
  }

  /** The company and, when there is a position, the date range, side by side. */
  function WorkTitleRow(e: WorkEntry): seq<Element> {
    When(e.company.GetOr("") != "", Para(Bold, e.company.GetOr("")))
    + When(e.position.GetOr("") != "",
           Para(NormalSmall, DateRange(e.startDate.GetOr(""), e.endDate.GetOr(""), " - ")))
  }

  /** `format_work_item`: the title row, the position, the description cut to
    * 500 characters with "...", and the first three achievements. */
  function WorkItem(e: WorkEntry): seq<Element> {
    var row := WorkTitleRow(e);
    When(row != [], Row(row))
    + When(e.position.GetOr("") != "", Para(NormalSmall, e.position.GetOr("")))
    + When(e.description.GetOr("") != "", Para(Normal, Shorten(e.description.GetOr(""), 500)))
    + Bullets("• ", Take(e.achievements.GetOr([]), 3), NormalSmall)
  }

  method FormatWorkItem(e: WorkEntry) returns (items: seq<Element>)
    ensures items == WorkItem(e)
  {
    var titleRow: seq<Element> := [];
    if e.company.GetOr("") != "" {
      titleRow := titleRow + [Para(Bold, e.company.GetOr(""))];
    }
    if e.position.GetOr("") != "" {
      titleRow := titleRow + [Para(NormalSmall, DateRange(e.startDate.GetOr(""), e.endDate.GetOr(""), " - "))];
    }
    assert titleRow == WorkTitleRow(e);
    items := [];
    if titleRow != [] {
      items := items + [Row(titleRow)];
    }
    assert items == When(WorkTitleRow(e) != [], Row(WorkTitleRow(e)));
    if e.position.GetOr("") != "" {
      items := items + [Para(NormalSmall, e.position.GetOr(""))];
    }
    if e.description.GetOr("") != "" {
      var desc := e.description.GetOr("");
      if |desc| > 500 {
        desc := desc[..500] + "...";
      }
      items := items + [Para(Normal, desc)];
    }
    assert items == When(WorkTitleRow(e) != [], Row(WorkTitleRow(e)))
      + When(e.position.GetOr("") != "", Para(NormalSmall, e.position.GetOr("")))
      + When(e.description.GetOr("") != "", Para(Normal, Shorten(e.description.GetOr(""), 500)));
    if e.achievements.GetOr([]) != [] {
      items := AppendBullets(items, "• ", Take(e.achievements.GetOr([]), 3), NormalSmall);
    }
  }

  /** A work item shows at most six elements, of which at most three are
    * achievements, and its one body paragraph is at most 503 characters. */
  lemma WorkItemCaps(e: WorkEntry)
    ensures |WorkItem(e)| <= 6
    ensures |Texts(WorkItem(e), Normal)| <= 1
    ensures forall t :: t in Texts(WorkItem(e), Normal) ==> |t| <= 503
  {
    WorkItemTexts(e, Normal);
  }

  /** The paragraphs of a work item in a style other than the small one. */
  lemma WorkItemTexts(e: WorkEntry, style: Style)
    requires style != NormalSmall
    ensures Texts(WorkItem(e), style) ==
      if style == Normal && e.description.GetOr("") != "" then [Shorten(e.description.GetOr(""), 500)] else []
  {
    var row := WorkTitleRow(e);
    var a := When(row != [], Row(row));
    var b := When(e.position.GetOr("") != "", Para(NormalSmall, e.position.GetOr("")));
    var c := When(e.description.GetOr("") != "", Para(Normal, Shorten(e.description.GetOr(""), 500)));
    var d := Bullets("• ", Take(e.achievements.GetOr([]), 3), NormalSmall);
    assert Texts(a, style) == [] by { TextsWhen(row != [], Row(row), style); }
    assert Texts(b, style) == [] by {
      TextsWhen(e.position.GetOr("") != "", Para(NormalSmall, e.position.GetOr("")), style);
    }
    assert Texts(d, style) == [] by {
      TextsOfBullets("• ", Take(e.achievements.GetOr([]), 3), NormalSmall, style);
    }
    TextsWhen(e.description.GetOr("") != "", Para(Normal, Shorten(e.description.GetOr(""), 500)), style);
    OnlyThirdSpeaks(a, b, c, d, style);
  }

  function WorkSection(xs: seq<WorkEntry>): seq<Element> {
    [Para(Heading2, "工作经历")] + Items(xs, WorkItem)
  }

  /** `add_work_experience` */
  method AddWorkExperience(xs: seq<WorkEntry>) returns (els: seq<Element>)
    ensures els == WorkSection(xs)
  {
    els := [Para(Heading2, "工作经历")];
    for i := 0 to |xs|
      invariant els == [Para(Heading2, "工作经历")] + Items(xs[..i], WorkItem)
    {
      ItemsSnoc([Para(Heading2, "工作经历")], xs, i, WorkItem);
      var item := FormatWorkItem(xs[i]);
      els := els + item + [Gap];
    }
    assert xs[..|xs|] == xs;
  }

  /** `format_project_item`: the name beside the date range, the role, the
    * first eight technologies, and the description cut to 300 characters
    * with "...". */
  function ProjectItem(p: ProjectEntry): seq<Element> {
    var row := When(p.name.GetOr("") != "", Para(Bold, p.name.GetOr("")))
      + [Para(NormalSmall, DateRange(p.startDate.GetOr(""), p.endDate.GetOr(""), " - "))];
    [Row(row)]
    + When(p.role.GetOr("") != "", Para(NormalSmall, "职责: " + p.role.GetOr("")))
    + When(p.techStack.GetOr([]) != [], Para(NormalSmall, "技术: " + Join(" | ", Take(p.techStack.GetOr([]), 8))))
    + When(p.description.GetOr("") != "", Para(Normal, Shorten(p.description.GetOr(""), 300)))
  }

  /** Technologies past the eighth never show: two stacks that agree on their
    * first eight entries give the same project item. */
  lemma ProjectItemIgnoresLaterTech(p: ProjectEntry, a: seq<String>, b: seq<String>)
    requires |a| >= 8 && |b| >= 8 && a[..8] == b[..8]
    ensures ProjectItem(p.(techStack := Some(a))) == ProjectItem(p.(techStack := Some(b)))
  {
  }

  /** A project item always starts with its title row and has at most four elements. */
  lemma ProjectItemShape(p: ProjectEntry)
    ensures 1 <= |ProjectItem(p)| <= 4 && ProjectItem(p)[0].Row?
  {
  }

  function ProjectSection(xs: seq<ProjectEntry>): seq<Element> {
    [Para(Heading2, "项目经历")] + Items(xs, ProjectItem)
  }

  /** `add_project_experience` */
  method AddProjectExperience(xs: seq<ProjectEntry>) returns (els: seq<Element>)
    ensures els == ProjectSection(xs)
  {
    els := AppendItems([Para(Heading2, "项目经历")], xs, ProjectItem);
  }

  /** `format_education_item`: the school beside the date range, then degree and major. */
  function EducationItem(e: EducationEntry): seq<Element> {
    var row := When(e.school.GetOr("") != "", Para(Bold, e.school.GetOr("")))
      + [Para(NormalSmall, DateRange(e.startDate.GetOr(""), e.endDate.GetOr(""), " - "))];
    var degreeMajor := IfSet(e.degree.GetOr("")) + IfSet(e.major.GetOr(""));
    [Row(row)] + When(degreeMajor != [], Para(NormalSmall, Join(" | ", degreeMajor)))
  }

  function EducationSection(xs: seq<EducationEntry>): seq<Element> {
    [Para(Heading2, "教育背景")] + Items(xs, EducationItem)
  }

  /** `add_education` */
  method AddEducation(xs: seq<EducationEntry>) returns (els: seq<Element>)
    ensures els == EducationSection(xs)
  {
    els := AppendItems([Para(Heading2, "教育背景")], xs, EducationItem);
  }

  /** `add_certificates`: the first six certificates on one line. */
  function Certificates(certs: seq<String>): seq<Element> {
    if certs == [] then [] else [Para(Heading2, "证书资质"), Para(Normal, Join(" | ", Take(certs, 6))), Gap]
  }

  /** Certificates past the sixth never show: two lists that agree on their
    * first six entries give the same section. */
  lemma CertificatesIgnoreTail(a: seq<String>, b: seq<String>)
    requires |a| >= 6 && |b| >= 6 && a[..6] == b[..6]
    ensures Certificates(a) == Certificates(b)
  {
  }

  /** `add_awards`: the first five awards, one bullet each. */
  function Awards(awards: seq<String>): seq<Element> {
    if awards == [] then [] else [Para(Heading2, "荣誉奖励")] + Bullets("• ", Take(awards, 5), Normal) + [Gap]
  }

  method AddAwards(awards: seq<String>) returns (els: seq<Element>)
    ensures els == Awards(awards)
  {
    if awards == [] {
      return [];
    }
    els := AppendBullets([Para(Heading2, "荣誉奖励")], "• ", Take(awards, 5), Normal);
    els := els + [Gap];
  }

  /** At most five awards are listed, and no award is listed when there are none. */
  lemma AwardsCap(awards: seq<String>)
    ensures |Awards(awards)| == if awards == [] then 0 else 2 + (if |awards| < 5 then |awards| else 5)
  {
  }

  /** The story of `build_content` after each of its steps: the header, then
    * each optional section in turn when its field is set. */
  function WithIntroduction(v: View): seq<Element> {
    Header(v) + Optional(v.selfIntroduction != "", Introduction(v.selfIntroduction))
  }

  function WithSkills(v: View): seq<Element> {
    WithIntroduction(v) + Optional(v.skills != [], Skills(v.skills))
  }

  function WithWork(v: View): seq<Element> {
    WithSkills(v) + Optional(v.workExperience != [], WorkSection(v.workExperience))
  }

  function WithProjects(v: View): seq<Element> {
    WithWork(v) + Optional(v.projectExperience != [], ProjectSection(v.projectExperience))
  }

  function WithEducation(v: View): seq<Element> {
    WithProjects(v) + Optional(v.education != [], EducationSection(v.education))
  }

  function WithCertificates(v: View): seq<Element> {
    WithEducation(v) + Optional(v.certificates != [], Certificates(v.certificates))
  }

  /** `build_content` as a value. */
  function Content(r: Record): seq<Element> {
    var v := Read(r);
    WithCertificates(v) + Optional(v.awards != [], Awards(v.awards))
  }

  /** `build_content` */
  method BuildContent(r: Record) returns (story: seq<Element>)
    ensures story == Content(r)
  {
    var v := Read(r);
    story := Header(v);
    var before := story;
    if v.selfIntroduction != "" {
      story := story + Introduction(v.selfIntroduction);
    }
    ExtendIf(before, v.selfIntroduction != "", Introduction(v.selfIntroduction));
    assert story == WithIntroduction(v);
    before := story;
    if v.skills != [] {
      story := story + Skills(v.skills);
    }
    ExtendIf(before, v.skills != [], Skills(v.skills));
    assert story == WithSkills(v);
    before := story;
    if v.workExperience != [] {
      var section := AddWorkExperience(v.workExperience);
      story := story + section;
    }
    ExtendIf(before, v.workExperience != [], WorkSection(v.workExperience));
    assert story == WithWork(v);
    before := story;
    if v.projectExperience != [] {
      var section := AddProjectExperience(v.projectExperience);
      story := story + section;
    }
    ExtendIf(before, v.projectExperience != [], ProjectSection(v.projectExperience));
    assert story == WithProjects(v);
    before := story;
    if v.education != [] {
      var section := AddEducation(v.education);
      story := story + section;
    }
    ExtendIf(before, v.education != [], EducationSection(v.education));
    assert story == WithEducation(v);
    before := story;
    if v.certificates != [] {
      story := story + Certificates(v.certificates);
    }
    ExtendIf(before, v.certificates != [], Certificates(v.certificates));
    assert story == WithCertificates(v);
    before := story;
    if v.awards != [] {
      var section := AddAwards(v.awards);
      story := story + section;
    }
    ExtendIf(before, v.awards != [], Awards(v.awards));
  }

  /** The section titles of the story are those of the non-empty fields, in
    * the order introduction, skills, work, projects, education, certificates,
    * awards. */
  lemma SectionOrder(r: Record)
    ensures Texts(Content(r), Heading2) ==
      var v := Read(r);
      TitleIf(v.selfIntroduction != "", "个人简介")
      + TitleIf(v.skills != [], "专业技能")
      + TitleIf(v.workExperience != [], "工作经历")
      + TitleIf(v.projectExperience != [], "项目经历")
      + TitleIf(v.education != [], "教育背景")
      + TitleIf(v.certificates != [], "证书资质")
      + TitleIf(v.awards != [], "荣誉奖励")
  {
    var v := Read(r);
    TitlesWithCertificates(v);
    if v.awards != [] {
      AwardsTitle(v.awards);
    }
    TitlesStep(WithCertificates(v), v.awards != [], Awards(v.awards), Heading2, "荣誉奖励",
      TitleIf(v.selfIntroduction != "", "个人简介")
        + TitleIf(v.skills != [], "专业技能")
        + TitleIf(v.workExperience != [], "工作经历")
        + TitleIf(v.projectExperience != [], "项目经历")
        + TitleIf(v.education != [], "教育背景")
        + TitleIf(v.certificates != [], "证书资质"));
  }

  lemma TitlesWithIntroduction(v: View)
    ensures Texts(WithIntroduction(v), Heading2) ==
      TitleIf(v.selfIntroduction != "", "个人简介")
  {
    HeaderHasNoTitles(v);
    ShortSectionTitle("个人简介", Normal, Strip(v.selfIntroduction));
    TitlesStep(Header(v), v.selfIntroduction != "", Introduction(v.selfIntroduction), Heading2, "个人简介", []);
    assert [] + TitleIf(v.selfIntroduction != "", "个人简介") == TitleIf(v.selfIntroduction != "", "个人简介");
  }

  lemma TitlesWithSkills(v: View)
    ensures Texts(WithSkills(v), Heading2) ==
      TitleIf(v.selfIntroduction != "", "个人简介")
      + TitleIf(v.skills != [], "专业技能")
  {
    TitlesWithIntroduction(v);
    ShortSectionTitle("专业技能", Normal, SkillsText(v.skills));
    TitlesStep(WithIntroduction(v), v.skills != [], Skills(v.skills), Heading2, "专业技能",
      TitleIf(v.selfIntroduction != "", "个人简介"));
  }

  lemma TitlesWithWork(v: View)
    ensures Texts(WithWork(v), Heading2) ==
      TitleIf(v.selfIntroduction != "", "个人简介")
      + TitleIf(v.skills != [], "专业技能")
      + TitleIf(v.workExperience != [], "工作经历")
  {
    TitlesWithSkills(v);
    WorkItemsHaveNoTitles(v.workExperience);
    TitledSection("工作经历", Heading2, Items(v.workExperience, WorkItem));
    TitlesStep(WithSkills(v), v.workExperience != [], WorkSection(v.workExperience), Heading2, "工作经历",
      TitleIf(v.selfIntroduction != "", "个人简介")
        + TitleIf(v.skills != [], "专业技能"));
  }

  lemma TitlesWithProjects(v: View)
    ensures Texts(WithProjects(v), Heading2) ==
      TitleIf(v.selfIntroduction != "", "个人简介")
      + TitleIf(v.skills != [], "专业技能")
      + TitleIf(v.workExperience != [], "工作经历")
      + TitleIf(v.projectExperience != [], "项目经历")
  {
    TitlesWithWork(v);
    ProjectItemsHaveNoTitles(v.projectExperience);
    TitledSection("项目经历", Heading2, Items(v.projectExperience, ProjectItem));
    TitlesStep(WithWork(v), v.projectExperience != [], ProjectSection(v.projectExperience), Heading2, "项目经历",
      TitleIf(v.selfIntroduction != "", "个人简介")
        + TitleIf(v.skills != [], "专业技能")
        + TitleIf(v.workExperience != [], "工作经历"));
  }

  lemma TitlesWithEducation(v: View)
    ensures Texts(WithEducation(v), Heading2) ==
      TitleIf(v.selfIntroduction != "", "个人简介")
      + TitleIf(v.skills != [], "专业技能")
      + TitleIf(v.workExperience != [], "工作经历")
      + TitleIf(v.projectExperience != [], "项目经历")
      + TitleIf(v.education != [], "教育背景")
  {
    TitlesWithProjects(v);
    EducationItemsHaveNoTitles(v.education);
    TitledSection("教育背景", Heading2, Items(v.education, EducationItem));
    TitlesStep(WithProjects(v), v.education != [], EducationSection(v.education), Heading2, "教育背景",
      TitleIf(v.selfIntroduction != "", "个人简介")
        + TitleIf(v.skills != [], "专业技能")
        + TitleIf(v.workExperience != [], "工作经历")
        + TitleIf(v.projectExperience != [], "项目经历"));
  }

  lemma TitlesWithCertificates(v: View)
    ensures Texts(WithCertificates(v), Heading2) ==
      TitleIf(v.selfIntroduction != "", "个人简介")
      + TitleIf(v.skills != [], "专业技能")
      + TitleIf(v.workExperience != [], "工作经历")
      + TitleIf(v.projectExperience != [], "项目经历")
      + TitleIf(v.education != [], "教育背景")
      + TitleIf(v.certificates != [], "证书资质")
  {
    TitlesWithEducation(v);
    ShortSectionTitle("证书资质", Normal, Join(" | ", Take(v.certificates, 6)));
    TitlesStep(WithEducation(v), v.certificates != [], Certificates(v.certificates), Heading2, "证书资质",
      TitleIf(v.selfIntroduction != "", "个人简介")
        + TitleIf(v.skills != [], "专业技能")
        + TitleIf(v.workExperience != [], "工作经历")
        + TitleIf(v.projectExperience != [], "项目经历")
        + TitleIf(v.education != [], "教育背景"));
  }

  /** A title, one paragraph in another style and a spacer. */
  lemma ShortSectionTitle(title: String, style: Style, text: String)
    requires style != Heading2
    ensures Texts([Para(Heading2, title), Para(style, text), Gap], Heading2) == [title]
  {
    TextsPair(Para(style, text), Gap, Heading2);
    TitledSection(title, Heading2, [Para(style, text), Gap]);
    assert [Para(Heading2, title)] + [Para(style, text), Gap] == [Para(Heading2, title), Para(style, text), Gap];
  }

  lemma AwardsTitle(awards: seq<String>)
    requires awards != []
    ensures Texts(Awards(awards), Heading2) == ["荣誉奖励"]
  {
    var bullets := Bullets("• ", Take(awards, 5), Normal);
    TextsOfBullets("• ", Take(awards, 5), Normal, Heading2);
    TextsSingle(Gap, Heading2);
    TextsAppend(bullets, [Gap], Heading2);
    TitledSection("荣誉奖励", Heading2, bullets + [Gap]);
    assert [Para(Heading2, "荣誉奖励")] + (bullets + [Gap]) == Awards(awards);
  }

  /** No item of any kind renders a `Heading2` paragraph. */
  lemma WorkItemsHaveNoTitles(xs: seq<WorkEntry>)
    ensures Texts(Items(xs, WorkItem), Heading2) == []
  {
    forall e: WorkEntry ensures Texts(WorkItem(e), Heading2) == [] {
      WorkItemTexts(e, Heading2);
    }
    TextsOfItems(xs, WorkItem, Heading2);
  }

  lemma ProjectItemsHaveNoTitles(xs: seq<ProjectEntry>)
    ensures Texts(Items(xs, ProjectItem), Heading2) == []
  {
    forall p: ProjectEntry ensures Texts(ProjectItem(p), Heading2) == [] {
      ProjectItemTexts(p, Heading2);
    }
    TextsOfItems(xs, ProjectItem, Heading2);
  }

  lemma EducationItemsHaveNoTitles(xs: seq<EducationEntry>)
    ensures Texts(Items(xs, EducationItem), Heading2) == []
  {
    forall e: EducationEntry ensures Texts(EducationItem(e), Heading2) == [] {
      EducationItemTexts(e, Heading2);
    }
    TextsOfItems(xs, EducationItem, Heading2);
  }

  /** The paragraphs of a project item in a style other than the small one. */
  lemma ProjectItemTexts(p: ProjectEntry, style: Style)
    requires style != NormalSmall
    ensures Texts(ProjectItem(p), style) ==
      if style == Normal && p.description.GetOr("") != "" then [Shorten(p.description.GetOr(""), 300)] else []
  {
    var row := When(p.name.GetOr("") != "", Para(Bold, p.name.GetOr("")))
      + [Para(NormalSmall, DateRange(p.startDate.GetOr(""), p.endDate.GetOr(""), " - "))];
    RowThenSmallThenNormal(row, p.role.GetOr("") != "", "职责: " + p.role.GetOr(""),
      p.techStack.GetOr([]) != [], "技术: " + Join(" | ", Take(p.techStack.GetOr([]), 8)),
      p.description.GetOr("") != "", Shorten(p.description.GetOr(""), 300), style);
  }

  /** A title row, two optional small lines and an optional normal line: only
    * the normal line is heard, and only in the normal style. */
  lemma RowThenSmallThenNormal(row: seq<Element>, hasX: bool, x: String, hasY: bool, y: String,
                               hasZ: bool, z: String, style: Style)
    requires style != NormalSmall
    ensures Texts([Row(row)] + When(hasX, Para(NormalSmall, x)) + When(hasY, Para(NormalSmall, y))
                  + When(hasZ, Para(Normal, z)), style) == if style == Normal && hasZ then [z] else []
  {
    var a := [Row(row)];
    var b := When(hasX, Para(NormalSmall, x));
    var c := When(hasY, Para(NormalSmall, y));
    var d := When(hasZ, Para(Normal, z));
    assert Texts(a + b + c, style) == [] by {
      TextsSingle(Row(row), style);
      TextsWhen(hasX, Para(NormalSmall, x), style);
      TextsWhen(hasY, Para(NormalSmall, y), style);
      TextsAppend(a, b, style);
      TextsAppend(a + b, c, style);
    }
    TextsWhen(hasZ, Para(Normal, z), style);
    OnlyLastSpeaks(a + b + c, d, style);
  }

  /** An education item has no paragraph outside its title row but the small
    * degree-and-major line. */
  lemma EducationItemTexts(e: EducationEntry, style: Style)
    requires style != NormalSmall
    ensures Texts(EducationItem(e), style) == []
  {
    var row := When(e.school.GetOr("") != "", Para(Bold, e.school.GetOr("")))
      + [Para(NormalSmall, DateRange(e.startDate.GetOr(""), e.endDate.GetOr(""), " - "))];
    var degreeMajor := IfSet(e.degree.GetOr("")) + IfSet(e.major.GetOr(""));
    TextsSingle(Row(row), style);
    TextsWhen(degreeMajor != [], Para(NormalSmall, Join(" | ", degreeMajor)), style);
    TextsAppend([Row(row)], When(degreeMajor != [], Para(NormalSmall, Join(" | ", degreeMajor))), style);
  }
}
