/** The "business" PDF template (`BusinessProfessionalExporter`): the base
  * header and a spacer, then work, projects, education, skills and a closing
  * section for certificates and awards, with section titles in `Heading1`.
  * Unlike the modern template it shows every achievement and the whole
  * description of an item. */
module PdfBusiness {
  import opened Text
  import opened Resume
  import opened PdfElements

  /** The line under a work item's company: the position and the dates when
    * there is a position, else the dates alone when there is a start date. */
  function WorkDateLine(e: WorkEntry): (r: seq<Element>)
    ensures |r| <= 1
    ensures r == [] <==> e.position.GetOr("") == "" && e.startDate.GetOr("") == ""
    ensures e.position.GetOr("") != "" ==>
      r == [Para(NormalSmall, e.position.GetOr("") + " | " + DateRange(e.startDate.GetOr(""), e.endDate.GetOr(""), " - "))]
  {
    var date := DateRange(e.startDate.GetOr(""), e.endDate.GetOr(""), " - ");
    if e.position.GetOr("") != "" then [Para(NormalSmall, e.position.GetOr("") + " | " + date)]
    else if e.startDate.GetOr("") != "" then [Para(NormalSmall, date)]
    else []
  }

  /** `format_work_item`: the company, the date line, the stripped description
    * and every achievement. */
  function WorkItem(e: WorkEntry): seq<Element> {
    When(e.company.GetOr("") != "", Para(Bold, e.company.GetOr("")))
    + WorkDateLine(e)
    + When(e.description.GetOr("") != "", Para(Normal, Strip(e.description.GetOr(""))))
    + Bullets("◆ ", e.achievements.GetOr([]), NormalSmall)
  }

  method FormatWorkItem(e: WorkEntry) returns (items: seq<Element>)
    ensures items == WorkItem(e)
  {
    items := [];
    if e.company.GetOr("") != "" {
      items := items + [Para(Bold, e.company.GetOr(""))];
    }
    assert items == When(e.company.GetOr("") != "", Para(Bold, e.company.GetOr("")));
    if e.position.GetOr("") != "" {
      var date := DateRange(e.startDate.GetOr(""), e.endDate.GetOr(""), " - ");
      items := items + [Para(NormalSmall, e.position.GetOr("") + " | " + date)];
    } else if e.startDate.GetOr("") != "" {
      var date := DateRange(e.startDate.GetOr(""), e.endDate.GetOr(""), " - ");
      items := items + [Para(NormalSmall, date)];
    }
    assert items == When(e.company.GetOr("") != "", Para(Bold, e.company.GetOr(""))) + WorkDateLine(e);
    if e.description.GetOr("") != "" {
      items := items + [Para(Normal, Strip(e.description.GetOr("")))];
    }
    assert items == When(e.company.GetOr("") != "", Para(Bold, e.company.GetOr(""))) + WorkDateLine(e)
      + When(e.description.GetOr("") != "", Para(Normal, Strip(e.description.GetOr(""))));
    if e.achievements.GetOr([]) != [] {
      items := AppendBullets(items, "◆ ", e.achievements.GetOr([]), NormalSmall);
    }
  }

  /** Every achievement of a work item is shown, one bullet each, in order,
    * after at most three other elements. */
  lemma WorkItemShowsAllAchievements(e: WorkEntry, k: nat)
    requires k < |e.achievements.GetOr([])|
    ensures |e.achievements.GetOr([])| <= |WorkItem(e)| <= |e.achievements.GetOr([])| + 3
    ensures WorkItem(e)[|WorkItem(e)| - |e.achievements.GetOr([])| + k]
      == Para(NormalSmall, "◆ " + e.achievements.GetOr([])[k])
  {
    var achs := e.achievements.GetOr([]);
    var head := When(e.company.GetOr("") != "", Para(Bold, e.company.GetOr(""))) + WorkDateLine(e)
      + When(e.description.GetOr("") != "", Para(Normal, Strip(e.description.GetOr(""))));
    assert WorkItem(e) == head + Bullets("◆ ", achs, NormalSmall);
    BulletsEach("◆ ", achs, NormalSmall, k);
  }

  /** The elements of a work item in neither of its three styles. */
  lemma WorkItemTexts(e: WorkEntry, style: Style)
    requires style != Bold && style != NormalSmall && style != Normal
    ensures Texts(WorkItem(e), style) == []
  {
    var a := When(e.company.GetOr("") != "", Para(Bold, e.company.GetOr("")));
    var b := WorkDateLine(e);
    var c := When(e.description.GetOr("") != "", Para(Normal, Strip(e.description.GetOr(""))));
    TextsWhen(e.company.GetOr("") != "", Para(Bold, e.company.GetOr("")), style);
    WorkDateLineTexts(e, style);
    TextsWhen(e.description.GetOr("") != "", Para(Normal, Strip(e.description.GetOr(""))), style);
    TextsOfBullets("◆ ", e.achievements.GetOr([]), NormalSmall, style);
    TextsAppend(a, b, style);
    TextsAppend(a + b, c, style);
    TextsAppend(a + b + c, Bullets("◆ ", e.achievements.GetOr([]), NormalSmall), style);
  }

  lemma WorkDateLineTexts(e: WorkEntry, style: Style)
    requires style != NormalSmall
    ensures Texts(WorkDateLine(e), style) == []
  {
    var date := DateRange(e.startDate.GetOr(""), e.endDate.GetOr(""), " - ");
    if e.position.GetOr("") != "" {
      TextsSingle(Para(NormalSmall, e.position.GetOr("") + " | " + date), style);
    } else if e.startDate.GetOr("") != "" {
      TextsSingle(Para(NormalSmall, date), style);
    }
  }

  function WorkSection(xs: seq<WorkEntry>): seq<Element> {
    [Para(Heading1, "工作经历")] + Items(xs, WorkItem)
  }

  /** `add_work_experience` */
  method AddWorkExperience(xs: seq<WorkEntry>) returns (els: seq<Element>)
    ensures els == WorkSection(xs)
  {
    els := [Para(Heading1, "工作经历")];
    for i := 0 to |xs|
      invariant els == [Para(Heading1, "工作经历")] + Items(xs[..i], WorkItem)
    {
      ItemsSnoc([Para(Heading1, "工作经历")], xs, i, WorkItem);
      var item := FormatWorkItem(xs[i]);
      els := els + item + [Gap];
    }
    assert xs[..|xs|] == xs;
  }

  /** The role and, when there is a start date, the dates. */
  function RoleDate(p: ProjectEntry): (r: seq<String>)
    ensures |r| <= 2
    ensures r == [] <==> p.role.GetOr("") == "" && p.startDate.GetOr("") == ""
  {
    IfSet(p.role.GetOr(""))
    + (if p.startDate.GetOr("") != "" then [DateRange(p.startDate.GetOr(""), p.endDate.GetOr(""), " - ")] else [])
  }

  /** `format_project_item`: the name, the role and dates joined by " | ", the
    * first six technologies, and the stripped description. */
  function ProjectItem(p: ProjectEntry): seq<Element> {
    When(p.name.GetOr("") != "", Para(Bold, p.name.GetOr("")))
    + When(RoleDate(p) != [], Para(NormalSmall, Join(" | ", RoleDate(p))))
    + When(p.techStack.GetOr([]) != [], Para(NormalSmall, "技术栈：" + Join(" | ", Take(p.techStack.GetOr([]), 6))))
    + When(p.description.GetOr("") != "", Para(Normal, Strip(p.description.GetOr(""))))
  }

  lemma ProjectItemTexts(p: ProjectEntry, style: Style)
    requires style != Bold && style != NormalSmall && style != Normal
    ensures Texts(ProjectItem(p), style) == []
  {
    var a := When(p.name.GetOr("") != "", Para(Bold, p.name.GetOr("")));
    var b := When(RoleDate(p) != [], Para(NormalSmall, Join(" | ", RoleDate(p))));
    var c := When(p.techStack.GetOr([]) != [], Para(NormalSmall, "技术栈：" + Join(" | ", Take(p.techStack.GetOr([]), 6))));
    var d := When(p.description.GetOr("") != "", Para(Normal, Strip(p.description.GetOr(""))));
    TextsWhen(p.name.GetOr("") != "", Para(Bold, p.name.GetOr("")), style);
    TextsWhen(RoleDate(p) != [], Para(NormalSmall, Join(" | ", RoleDate(p))), style);
    TextsWhen(p.techStack.GetOr([]) != [], Para(NormalSmall, "技术栈：" + Join(" | ", Take(p.techStack.GetOr([]), 6))), style);
    TextsWhen(p.description.GetOr("") != "", Para(Normal, Strip(p.description.GetOr(""))), style);
    TextsAppend(a, b, style);
    TextsAppend(a + b, c, style);
    TextsAppend(a + b + c, d, style);
  }

  function ProjectSection(xs: seq<ProjectEntry>): seq<Element> {
    [Para(Heading1, "项目经验")] + Items(xs, ProjectItem)
  }

  /** `add_project_experience` */
  method AddProjectExperience(xs: seq<ProjectEntry>) returns (els: seq<Element>)
    ensures els == ProjectSection(xs)
  {
    els := AppendItems([Para(Heading1, "项目经验")], xs, ProjectItem);
  }

  /** `format_education_item`: the school, degree and major joined by " | ",
    * and the dates when there is a start date. */
  function EducationItem(e: EducationEntry): seq<Element> {
    var info := IfSet(e.degree.GetOr("")) + IfSet(e.major.GetOr(""));
    When(e.school.GetOr("") != "", Para(Bold, e.school.GetOr("")))
    + When(info != [], Para(NormalSmall, Join(" | ", info)))
    + When(e.startDate.GetOr("") != "", Para(NormalSmall, DateRange(e.startDate.GetOr(""), e.endDate.GetOr(""), " - ")))
  }

  lemma EducationItemTexts(e: EducationEntry, style: Style)
    requires style != Bold && style != NormalSmall
    ensures Texts(EducationItem(e), style) == []
  {
    var info := IfSet(e.degree.GetOr("")) + IfSet(e.major.GetOr(""));
    var a := When(e.school.GetOr("") != "", Para(Bold, e.school.GetOr("")));
    var b := When(info != [], Para(NormalSmall, Join(" | ", info)));
    var c := When(e.startDate.GetOr("") != "", Para(NormalSmall, DateRange(e.startDate.GetOr(""), e.endDate.GetOr(""), " - ")));
    TextsWhen(e.school.GetOr("") != "", Para(Bold, e.school.GetOr("")), style);
    TextsWhen(info != [], Para(NormalSmall, Join(" | ", info)), style);
    TextsWhen(e.startDate.GetOr("") != "", Para(NormalSmall, DateRange(e.startDate.GetOr(""), e.endDate.GetOr(""), " - ")), style);
    TextsAppend(a, b, style);
    TextsAppend(a + b, c, style);
  }

  function EducationSection(xs: seq<EducationEntry>): seq<Element> {
    [Para(Heading1, "教育背景")] + Items(xs, EducationItem)
  }

  /** `add_education` */
  method AddEducation(xs: seq<EducationEntry>) returns (els: seq<Element>)
    ensures els == EducationSection(xs)
  {
    els := AppendItems([Para(Heading1, "教育背景")], xs, EducationItem);
  }

  /** The skills, six to a line, joined by " • ". */
  const SkillsPerLine := 6

  function SkillLines(skills: seq<String>): seq<Element> {
    ChunkLines(ChunksFrom(skills, 0, SkillsPerLine), " • ", Normal)
  }

  /** `add_skills` */
  function SkillsSection(skills: seq<String>): seq<Element> {
    [Para(Heading1, "专业技能")] + SkillLines(skills) + [Gap]
  }

  method AddSkills(skills: seq<String>) returns (els: seq<Element>)
    ensures els == SkillsSection(skills)
  {
    els := AppendChunks([Para(Heading1, "专业技能")], skills, SkillsPerLine, " • ", Normal);
    els := els + [Gap];
  }

  /** Every skill is shown: the lines are `ceil(n / 6)` groups of at most six
    * skills that give back the whole list, in order, when put together. */
  lemma SkillsAllShown(skills: seq<String>)
    ensures |SkillLines(skills)| == (|skills| + 5) / 6
    ensures Concat(ChunksFrom(skills, 0, SkillsPerLine)) == skills
    ensures forall k :: 0 <= k < |ChunksFrom(skills, 0, SkillsPerLine)| ==>
              0 < |ChunksFrom(skills, 0, SkillsPerLine)[k]| <= 6
  {
    ChunksCount(skills, 0, SkillsPerLine);
    ChunksPartition(skills, 0, SkillsPerLine);
  }

  /** A labelled list of `add_additional_info`, present only when the list
    * is non-empty: what comes before it, a bold caption, and the first four
    * entries. */
  function LabelledList(lead: seq<Element>, caption: String, xs: seq<String>): seq<Element> {
    if xs != [] then lead + [Para(Bold, caption)] + Bullets("• ", Take(xs, 4), NormalSmall) else []
  }

  function CertificatesPart(certs: seq<String>): seq<Element> {
    LabelledList([], "证书：", certs)
  }

  /** The awards are set off from the certificates by a spacer. */
  function AwardsPart(awards: seq<String>): seq<Element> {
    LabelledList([Gap], "荣誉：", awards)
  }

  /** `add_additional_info` */
  function AdditionalInfo(v: View): seq<Element> {
    [Para(Heading1, "其他信息")] + CertificatesPart(v.certificates) + AwardsPart(v.awards)
  }

  method AddAdditionalInfo(v: View) returns (els: seq<Element>)
    ensures els == AdditionalInfo(v)
  {
    els := [Para(Heading1, "其他信息")];
    if v.certificates != [] {
      els := els + [Para(Bold, "证书：")];
      els := AppendBullets(els, "• ", Take(v.certificates, 4), NormalSmall);
      assert [] + [Para(Bold, "证书：")] == [Para(Bold, "证书：")];
    }
    assert els == [Para(Heading1, "其他信息")] + CertificatesPart(v.certificates);
    if v.awards != [] {
      els := els + [Gap, Para(Bold, "荣誉：")];
      els := AppendBullets(els, "• ", Take(v.awards, 4), NormalSmall);
      assert [Gap] + [Para(Bold, "荣誉：")] == [Gap, Para(Bold, "荣誉：")];
    }
  }

  /** The closing section labels exactly the lists that are non-empty, and
    * lists at most four of each. */
  lemma AdditionalInfoLabels(v: View)
    ensures Texts(AdditionalInfo(v), Bold) ==
      TitleIf(v.certificates != [], "证书：") + TitleIf(v.awards != [], "荣誉：")
    ensures |Texts(AdditionalInfo(v), NormalSmall)| <= 8
  {
    var c := CertificatesPart(v.certificates);
    var a := AwardsPart(v.awards);
    LabelledListTexts([], "证书：", v.certificates);
    LabelledListTexts([Gap], "荣誉：", v.awards);
    TextsSingle(Para(Heading1, "其他信息"), Bold);
    TextsSingle(Para(Heading1, "其他信息"), NormalSmall);
    TextsAppend([Para(Heading1, "其他信息")], c, Bold);
    TextsAppend([Para(Heading1, "其他信息")] + c, a, Bold);
    TextsAppend([Para(Heading1, "其他信息")], c, NormalSmall);
    TextsAppend([Para(Heading1, "其他信息")] + c, a, NormalSmall);
    assert [] + TitleIf(v.certificates != [], "证书：") == TitleIf(v.certificates != [], "证书：");
  }

  /** A labelled list has its caption in bold when the list is non-empty,
    * and at most four entries as small text. */
  lemma LabelledListTexts(lead: seq<Element>, caption: String, xs: seq<String>)
    requires lead == [] || lead == [Gap]
    ensures Texts(LabelledList(lead, caption, xs), Bold) == TitleIf(xs != [], caption)
    ensures |Texts(LabelledList(lead, caption, xs), NormalSmall)| <= 4
  {
    if xs != [] {
      var bullets := Bullets("• ", Take(xs, 4), NormalSmall);
      var head := lead + [Para(Bold, caption)];
      TextsOfBullets("• ", Take(xs, 4), NormalSmall, Bold);
      BulletTexts("• ", Take(xs, 4), NormalSmall);
      TextsSingle(Para(Bold, caption), Bold);
      TextsSingle(Para(Bold, caption), NormalSmall);
      if lead == [Gap] {
        TextsSingle(Gap, Bold);
        TextsSingle(Gap, NormalSmall);
      }
      TextsAppend(lead, [Para(Bold, caption)], Bold);
      TextsAppend(lead, [Para(Bold, caption)], NormalSmall);
      TextsAppend(head, bullets, Bold);
      TextsAppend(head, bullets, NormalSmall);
    }
  }

  /** `build_content` after each of its steps. */
  function WithWork(v: View): seq<Element> {
    Header(v) + [Gap] + Optional(v.workExperience != [], WorkSection(v.workExperience))
  }

  function WithProjects(v: View): seq<Element> {
    WithWork(v) + Optional(v.projectExperience != [], ProjectSection(v.projectExperience))
  }

  function WithEducation(v: View): seq<Element> {
    WithProjects(v) + Optional(v.education != [], EducationSection(v.education))
  }

  function WithSkills(v: View): seq<Element> {
    WithEducation(v) + Optional(v.skills != [], SkillsSection(v.skills))
  }

  /** `build_content` as a value. */
  function Content(r: Record): seq<Element> {
    var v := Read(r);
    WithSkills(v) + Optional(v.certificates != [] || v.awards != [], AdditionalInfo(v))
  }

  /** `build_content` */
  method BuildContent(r: Record) returns (story: seq<Element>)
    ensures story == Content(r)
  {
    var v := Read(r);
    story := Header(v);
    story := story + [Gap];
    var before := story;
    if v.workExperience != [] {
      var section := AddWorkExperience(v.workExperience);
      story := story + section;
    }
    ExtendIf(before, v.workExperience != [], WorkSection(v.workExperience));
    assert story == WithWork(v);
    before := story;
    if v.projectExperience != [] {
      var section := AddProjectExperience(v.projectExperience);
      story := story + section;
    }
    ExtendIf(before, v.projectExperience != [], ProjectSection(v.projectExperience));
    assert story == WithProjects(v);
    before := story;
    if v.education != [] {
      var section := AddEducation(v.education);
      story := story + section;
    }
    ExtendIf(before, v.education != [], EducationSection(v.education));
    assert story == WithEducation(v);
    before := story;
    if v.skills != [] {
      var section := AddSkills(v.skills);
      story := story + section;
    }
    ExtendIf(before, v.skills != [], SkillsSection(v.skills));
    assert story == WithSkills(v);
    before := story;
    if v.certificates != [] || v.awards != [] {
      var section := AddAdditionalInfo(v);
      story := story + section;
    }
    ExtendIf(before, v.certificates != [] || v.awards != [], AdditionalInfo(v));
  }

  /** The section titles are those of the non-empty fields, in the order work,
    * projects, education, skills, and "其他信息" when there are certificates
    * or awards. */
  lemma SectionOrder(r: Record)
    ensures Texts(Content(r), Heading1) ==
      var v := Read(r);
      TitleIf(v.workExperience != [], "工作经历")
      + TitleIf(v.projectExperience != [], "项目经验")
      + TitleIf(v.education != [], "教育背景")
      + TitleIf(v.skills != [], "专业技能")
      + TitleIf(v.certificates != [] || v.awards != [], "其他信息")
  {
    var v := Read(r);
    TitlesWithSkills(v);
    InfoTitle(v);
    TitlesStep(WithSkills(v), v.certificates != [] || v.awards != [], AdditionalInfo(v), Heading1, "其他信息",
      TitleIf(v.workExperience != [], "工作经历")
        + TitleIf(v.projectExperience != [], "项目经验")
        + TitleIf(v.education != [], "教育背景")
        + TitleIf(v.skills != [], "专业技能"));
  }

  lemma TitlesWithWork(v: View)
    ensures Texts(WithWork(v), Heading1) == TitleIf(v.workExperience != [], "工作经历")
  {
    HeaderHasNoTitles(v);
    TextsSingle(Gap, Heading1);
    TextsAppend(Header(v), [Gap], Heading1);
    forall e: WorkEntry ensures Texts(WorkItem(e), Heading1) == [] {
      WorkItemTexts(e, Heading1);
    }
    TextsOfItems(v.workExperience, WorkItem, Heading1);
    TitledSection("工作经历", Heading1, Items(v.workExperience, WorkItem));
    TitlesStep(Header(v) + [Gap], v.workExperience != [], WorkSection(v.workExperience), Heading1, "工作经历", []);
    assert [] + TitleIf(v.workExperience != [], "工作经历") == TitleIf(v.workExperience != [], "工作经历");
  }

  lemma TitlesWithProjects(v: View)
    ensures Texts(WithProjects(v), Heading1) ==
      TitleIf(v.workExperience != [], "工作经历")
      + TitleIf(v.projectExperience != [], "项目经验")
  {
    TitlesWithWork(v);
    forall p: ProjectEntry ensures Texts(ProjectItem(p), Heading1) == [] {
      ProjectItemTexts(p, Heading1);
    }
    TextsOfItems(v.projectExperience, ProjectItem, Heading1);
    TitledSection("项目经验", Heading1, Items(v.projectExperience, ProjectItem));
    TitlesStep(WithWork(v), v.projectExperience != [], ProjectSection(v.projectExperience), Heading1, "项目经验",
      TitleIf(v.workExperience != [], "工作经历"));
  }

  lemma TitlesWithEducation(v: View)
    ensures Texts(WithEducation(v), Heading1) ==
      TitleIf(v.workExperience != [], "工作经历")
      + TitleIf(v.projectExperience != [], "项目经验")
      + TitleIf(v.education != [], "教育背景")
  {
    TitlesWithProjects(v);
    forall e: EducationEntry ensures Texts(EducationItem(e), Heading1) == [] {
      EducationItemTexts(e, Heading1);
    }
    TextsOfItems(v.education, EducationItem, Heading1);
    TitledSection("教育背景", Heading1, Items(v.education, EducationItem));
    TitlesStep(WithProjects(v), v.education != [], EducationSection(v.education), Heading1, "教育背景",
      TitleIf(v.workExperience != [], "工作经历")
        + TitleIf(v.projectExperience != [], "项目经验"));
  }

  lemma TitlesWithSkills(v: View)
    ensures Texts(WithSkills(v), Heading1) ==
      TitleIf(v.workExperience != [], "工作经历")
      + TitleIf(v.projectExperience != [], "项目经验")
      + TitleIf(v.education != [], "教育背景")
      + TitleIf(v.skills != [], "专业技能")
  {
    TitlesWithEducation(v);
    SkillsTitle(v.skills);
    TitlesStep(WithEducation(v), v.skills != [], SkillsSection(v.skills), Heading1, "专业技能",
      TitleIf(v.workExperience != [], "工作经历")
        + TitleIf(v.projectExperience != [], "项目经验")
        + TitleIf(v.education != [], "教育背景"));
  }

  lemma SkillsTitle(skills: seq<String>)
    ensures Texts(SkillsSection(skills), Heading1) == ["专业技能"]
  {
    var lines := SkillLines(skills);
    TextsOfChunkLines(ChunksFrom(skills, 0, SkillsPerLine), " • ", Normal, Heading1);
    TitledSection("专业技能", Heading1, lines);
    TextsSingle(Gap, Heading1);
    TextsAppend([Para(Heading1, "专业技能")] + lines, [Gap], Heading1);
  }

  /** The closing section has the one `Heading1` title "其他信息". */
  lemma InfoTitle(v: View)
    ensures Texts(AdditionalInfo(v), Heading1) == ["其他信息"]
  {
    var c := CertificatesPart(v.certificates);
    var a := AwardsPart(v.awards);
    LabelledListNoTitle([], "证书：", v.certificates, Heading1);
    LabelledListNoTitle([Gap], "荣誉：", v.awards, Heading1);
    TextsAppend(c, a, Heading1);
    TitledSection("其他信息", Heading1, c + a);
    assert [Para(Heading1, "其他信息")] + (c + a) == AdditionalInfo(v);
  }

  lemma LabelledListNoTitle(lead: seq<Element>, caption: String, xs: seq<String>, style: Style)
    requires lead == [] || lead == [Gap]
    requires style != Bold && style != NormalSmall
    ensures Texts(LabelledList(lead, caption, xs), style) == []
  {
    if xs != [] {
      TextsOfBullets("• ", Take(xs, 4), NormalSmall, style);
      TextsSingle(Para(Bold, caption), style);
      if lead == [Gap] {
        TextsSingle(Gap, style);
      }
      TextsAppend(lead, [Para(Bold, caption)], style);
      TextsAppend(lead + [Para(Bold, caption)], Bullets("• ", Take(xs, 4), NormalSmall), style);
    }
  }
}
