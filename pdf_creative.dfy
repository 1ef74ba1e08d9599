/** The "creative" PDF template (`CreativeDesignExporter`): the name in capitals
  * and the job title, then one two-column table whose left cell is a sidebar
  * (contacts, skills, certificates, awards, titles in `Heading2`) and whose
  * right cell is the main column (introduction, work, projects, education,
  * titles in `Heading1`). */
module PdfCreative {
  import opened Text
  import opened Resume
  import opened PdfElements

  /** `add_creative_header` */
  function Header(v: View): (r: seq<Element>)
    ensures |r| <= 2
    ensures r == [] <==> v.name == "" && v.jobTitle == ""
  {
    When(v.name != "", Para(CreativeName, Upper(v.name)))
    + When(v.jobTitle != "", Para(CreativeTitle, v.jobTitle))
  }

  /** The name is shown in capitals, once, when it is set. */
  lemma HeaderName(v: View)
    ensures Texts(Header(v), CreativeName) == if v.name != "" then [Upper(v.name)] else []
  {
    TextsWhen(v.name != "", Para(CreativeName, Upper(v.name)), CreativeName);
    TextsWhen(v.jobTitle != "", Para(CreativeTitle, v.jobTitle), CreativeName);
    TextsAppend(When(v.name != "", Para(CreativeName, Upper(v.name))),
                When(v.jobTitle != "", Para(CreativeTitle, v.jobTitle)), CreativeName);
  }

  /** A titled list of the sidebar: when `xs` is non-empty, its title and
    * its first `n` entries behind `prefix`. */
  function ListBlock(title: String, prefix: String, xs: seq<String>, n: nat): seq<Element> {
    Optional(xs != [], [Para(Heading2, title)] + Bullets(prefix, Take(xs, n), NormalSmall))
  }

  /** `build_sidebar` after each of its steps: the contacts title is always
    * there, even when no contact field is set. */
  function SidebarContacts(v: View): seq<Element> {
    [Gap, Para(Heading2, "联系方式")]
    + When(v.phone != "", Para(NormalSmall, "📱 " + v.phone))
    + When(v.email != "", Para(NormalSmall, "✉️ " + v.email))
    + When(v.location != "", Para(NormalSmall, "📍 " + v.location))
    + [Gap]
  }

  function SidebarSkills(v: View): seq<Element> {
    SidebarContacts(v) + ListBlock("技能专长", "▸ ", v.skills, 12) + [Gap]
  }

  function SidebarCertificates(v: View): seq<Element> {
    SidebarSkills(v) + ListBlock("证书资质", "▸ ", v.certificates, 5) + [Gap]
  }

  /** `build_sidebar` as a value. */
  function Sidebar(v: View): seq<Element> {
    SidebarCertificates(v) + ListBlock("荣誉奖励", "★ ", v.awards, 5)
  }

  /** `build_sidebar` */
  method BuildSidebar(v: View) returns (els: seq<Element>)
    ensures els == Sidebar(v)
  {
    els := [Gap];
    els := els + [Para(Heading2, "联系方式")];
    assert els == [Gap, Para(Heading2, "联系方式")];
    var before := els;
    if v.phone != "" {
      els := els + [Para(NormalSmall, "📱 " + v.phone)];
    }
    AppendIf(before, v.phone != "", Para(NormalSmall, "📱 " + v.phone));
    before := els;
    if v.email != "" {
      els := els + [Para(NormalSmall, "✉️ " + v.email)];
    }
    AppendIf(before, v.email != "", Para(NormalSmall, "✉️ " + v.email));
    before := els;
    if v.location != "" {
      els := els + [Para(NormalSmall, "📍 " + v.location)];
    }
    AppendIf(before, v.location != "", Para(NormalSmall, "📍 " + v.location));
    els := els + [Gap];
    assert els == SidebarContacts(v);
    els := AddListBlock(els, "技能专长", "▸ ", v.skills, 12);
    els := els + [Gap];
    els := AddListBlock(els, "证书资质", "▸ ", v.certificates, 5);
    els := els + [Gap];
    els := AddListBlock(els, "荣誉奖励", "★ ", v.awards, 5);
  }

  /** `if xs: els.append(Paragraph(title)); for x in xs[:n]: els.append(Paragraph(prefix + x))` */
  method AddListBlock(els: seq<Element>, title: String, prefix: String, xs: seq<String>, n: nat)
    returns (out: seq<Element>)
    ensures out == els + ListBlock(title, prefix, xs, n)
  {
    out := els;
    if xs != [] {
      out := out + [Para(Heading2, title)];
      out := AppendBullets(out, prefix, Take(xs, n), NormalSmall);
      AppendTwice(els, [Para(Heading2, title)], Bullets(prefix, Take(xs, n), NormalSmall));
    }
    ExtendIf(els, xs != [], [Para(Heading2, title)] + Bullets(prefix, Take(xs, n), NormalSmall));
  }

  /** A titled list has its title exactly when the list is non-empty, and at
    * most `n` entries. */
  lemma ListBlockTexts(title: String, prefix: String, xs: seq<String>, n: nat)
    ensures Texts(ListBlock(title, prefix, xs, n), Heading2) == TitleIf(xs != [], title)
    ensures |Texts(ListBlock(title, prefix, xs, n), NormalSmall)| <= n
  {
    if xs != [] {
      var bullets := Bullets(prefix, Take(xs, n), NormalSmall);
      TextsOfBullets(prefix, Take(xs, n), NormalSmall, Heading2);
      BulletTexts(prefix, Take(xs, n), NormalSmall);
      TitledSection(title, Heading2, bullets);
      TextsSingle(Para(Heading2, title), NormalSmall);
      TextsAppend([Para(Heading2, title)], bullets, NormalSmall);
    }
  }

  /** The sidebar's titles: "联系方式" always, then skills, certificates and
    * awards for the lists that are non-empty. */
  lemma SidebarTitles(v: View)
    ensures Texts(Sidebar(v), Heading2) ==
      ["联系方式"] + TitleIf(v.skills != [], "技能专长")
      + TitleIf(v.certificates != [], "证书资质") + TitleIf(v.awards != [], "荣誉奖励")
  {
    SidebarContactsTitle(v);
    ListBlockTexts("技能专长", "▸ ", v.skills, 12);
    ListBlockTexts("证书资质", "▸ ", v.certificates, 5);
    ListBlockTexts("荣誉奖励", "★ ", v.awards, 5);
    TextsSingle(Gap, Heading2);
    var b1 := ListBlock("技能专长", "▸ ", v.skills, 12);
    var b2 := ListBlock("证书资质", "▸ ", v.certificates, 5);
    TextsAppend(SidebarContacts(v), b1, Heading2);
    TextsQuiet(SidebarContacts(v) + b1, [Gap], Heading2);
    TextsAppend(SidebarSkills(v), b2, Heading2);
    TextsQuiet(SidebarSkills(v) + b2, [Gap], Heading2);
    TextsAppend(SidebarCertificates(v), ListBlock("荣誉奖励", "★ ", v.awards, 5), Heading2);
  }

  lemma SidebarContactsTitle(v: View)
    ensures Texts(SidebarContacts(v), Heading2) == ["联系方式"]
  {
    var a := When(v.phone != "", Para(NormalSmall, "📱 " + v.phone));
    var b := When(v.email != "", Para(NormalSmall, "✉️ " + v.email));
    var c := When(v.location != "", Para(NormalSmall, "📍 " + v.location));
    TextsWhen(v.phone != "", Para(NormalSmall, "📱 " + v.phone), Heading2);
    TextsWhen(v.email != "", Para(NormalSmall, "✉️ " + v.email), Heading2);
    TextsWhen(v.location != "", Para(NormalSmall, "📍 " + v.location), Heading2);
    TextsSingle(Gap, Heading2);
    TextsSingle(Para(Heading2, "联系方式"), Heading2);
    TextsAppend([Gap], [Para(Heading2, "联系方式")], Heading2);
    assert [Gap] + [Para(Heading2, "联系方式")] == [Gap, Para(Heading2, "联系方式")];
    assert [] + ["联系方式"] == ["联系方式"];
    var p := [Gap, Para(Heading2, "联系方式")];
    TextsQuiet(p, a, Heading2);
    TextsQuiet(p + a, b, Heading2);
    TextsQuiet(p + a + b, c, Heading2);
    TextsQuiet(p + a + b + c, [Gap], Heading2);
  }

  /** `format_work_item`: the company, the position with the dates, and the
    * first 300 characters of the description, with no ellipsis. */
  function WorkItem(e: WorkEntry): seq<Element> {
    When(e.company.GetOr("") != "", Para(Bold, e.company.GetOr("")))
    + When(e.position.GetOr("") != "",
           Para(NormalSmall, e.position.GetOr("") + " | " + DateRange(e.startDate.GetOr(""), e.endDate.GetOr(""), " - ")))
    + When(e.description.GetOr("") != "", Para(Normal, Take(e.description.GetOr(""), 300)))
  }

  /** The description of a work item is cut, not shortened with "...": the
    * one body paragraph is the description's first 300 characters. */
  lemma WorkItemTexts(e: WorkEntry, style: Style)
    requires style != Bold && style != NormalSmall
    ensures Texts(WorkItem(e), style) ==
      if style == Normal && e.description.GetOr("") != "" then [Take(e.description.GetOr(""), 300)] else []
  {
    var date := DateRange(e.startDate.GetOr(""), e.endDate.GetOr(""), " - ");
    var a := When(e.company.GetOr("") != "", Para(Bold, e.company.GetOr("")));
    var b := When(e.position.GetOr("") != "", Para(NormalSmall, e.position.GetOr("") + " | " + date));
    var c := When(e.description.GetOr("") != "", Para(Normal, Take(e.description.GetOr(""), 300)));
    TextsWhen(e.company.GetOr("") != "", Para(Bold, e.company.GetOr("")), style);
    TextsWhen(e.position.GetOr("") != "", Para(NormalSmall, e.position.GetOr("") + " | " + date), style);
    TextsWhen(e.description.GetOr("") != "", Para(Normal, Take(e.description.GetOr(""), 300)), style);
    TextsAppend(a, b, style);
    TextsAppend(a + b, c, style);
  }

  /** `format_project_item`: the name, the role, the first five technologies
    * in brackets, and the first 200 characters of the description. */
  function ProjectItem(p: ProjectEntry): seq<Element> {
    When(p.name.GetOr("") != "", Para(Bold, p.name.GetOr("")))
    + When(p.role.GetOr("") != "", Para(NormalSmall, p.role.GetOr("")))
    + When(p.techStack.GetOr([]) != [], Para(NormalSmall, "[" + Join(" | ", Take(p.techStack.GetOr([]), 5)) + "]"))
    + When(p.description.GetOr("") != "", Para(Normal, Take(p.description.GetOr(""), 200)))
  }

  lemma ProjectItemTexts(p: ProjectEntry, style: Style)
    requires style != Bold && style != NormalSmall && style != Normal
    ensures Texts(ProjectItem(p), style) == []
  {
    var a := When(p.name.GetOr("") != "", Para(Bold, p.name.GetOr("")));
    var b := When(p.role.GetOr("") != "", Para(NormalSmall, p.role.GetOr("")));
    var c := When(p.techStack.GetOr([]) != [], Para(NormalSmall, "[" + Join(" | ", Take(p.techStack.GetOr([]), 5)) + "]"));
    var d := When(p.description.GetOr("") != "", Para(Normal, Take(p.description.GetOr(""), 200)));
    TextsWhen(p.name.GetOr("") != "", Para(Bold, p.name.GetOr("")), style);
    TextsWhen(p.role.GetOr("") != "", Para(NormalSmall, p.role.GetOr("")), style);
    TextsWhen(p.techStack.GetOr([]) != [], Para(NormalSmall, "[" + Join(" | ", Take(p.techStack.GetOr([]), 5)) + "]"), style);
    TextsWhen(p.description.GetOr("") != "", Para(Normal, Take(p.description.GetOr(""), 200)), style);
    TextsAppend(a, b, style);
    TextsAppend(a + b, c, style);
    TextsAppend(a + b + c, d, style);
  }

  /** `format_education_item`: the school, then degree and major joined by " | ". */
  function EducationItem(e: EducationEntry): seq<Element> {
    var info := IfSet(e.degree.GetOr("")) + IfSet(e.major.GetOr(""));
    When(e.school.GetOr("") != "", Para(Bold, e.school.GetOr("")))
    + When(info != [], Para(NormalSmall, Join(" | ", info)))
  }

  lemma EducationItemTexts(e: EducationEntry, style: Style)
    requires style != Bold && style != NormalSmall
    ensures Texts(EducationItem(e), style) == []
  {
    var info := IfSet(e.degree.GetOr("")) + IfSet(e.major.GetOr(""));
    TextsWhen(e.school.GetOr("") != "", Para(Bold, e.school.GetOr("")), style);
    TextsWhen(info != [], Para(NormalSmall, Join(" | ", info)), style);
    TextsAppend(When(e.school.GetOr("") != "", Para(Bold, e.school.GetOr(""))),
                When(info != [], Para(NormalSmall, Join(" | ", info))), style);
  }

  /** The four blocks of the main column. */
  function AboutBlock(intro: String): seq<Element> {
    [Para(Heading1, "关于我"), Para(Normal, Strip(intro)), Gap]
  }

  /** At most four jobs, each followed by a spacer, and one more spacer. */
  function WorkBlock(xs: seq<WorkEntry>): seq<Element> {
    [Para(Heading1, "工作经历")] + Items(Take(xs, 4), WorkItem) + [Gap]
  }

  /** At most four projects. */
  function ProjectBlock(xs: seq<ProjectEntry>): seq<Element> {
    [Para(Heading1, "项目作品")] + Items(Take(xs, 4), ProjectItem) + [Gap]
  }

  /** At most two schools, with no closing spacer. */
  function EducationBlock(xs: seq<EducationEntry>): seq<Element> {
    [Para(Heading1, "教育背景")] + Items(Take(xs, 2), EducationItem)
  }

  /** `build_main_content` after each of its steps. */
  function MainWithWork(v: View): seq<Element> {
    Optional(v.selfIntroduction != "", AboutBlock(v.selfIntroduction))
    + Optional(v.workExperience != [], WorkBlock(v.workExperience))
  }

  function MainWithProjects(v: View): seq<Element> {
    MainWithWork(v) + Optional(v.projectExperience != [], ProjectBlock(v.projectExperience))
  }

  /** `build_main_content` as a value. */
  function Main(v: View): seq<Element> {
    MainWithProjects(v) + Optional(v.education != [], EducationBlock(v.education))
  }

  /** `build_main_content` */
  method BuildMainContent(v: View) returns (els: seq<Element>)
    ensures els == Main(v)
  {
    els := [];
    if v.selfIntroduction != "" {
      els := els + [Para(Heading1, "关于我")];
      els := els + [Para(Normal, Strip(v.selfIntroduction))];
      els := els + [Gap];
    }
    assert els == Optional(v.selfIntroduction != "", AboutBlock(v.selfIntroduction));
    var before := els;
    if v.workExperience != [] {
      els := els + [Para(Heading1, "工作经历")];
      els := AppendItems(els, Take(v.workExperience, 4), WorkItem);
      els := els + [Gap];
      AppendThrice(before, [Para(Heading1, "工作经历")], Items(Take(v.workExperience, 4), WorkItem), [Gap]);
    }
    ExtendIf(before, v.workExperience != [], WorkBlock(v.workExperience));
    before := els;
    if v.projectExperience != [] {
      els := els + [Para(Heading1, "项目作品")];
      els := AppendItems(els, Take(v.projectExperience, 4), ProjectItem);
      els := els + [Gap];
      AppendThrice(before, [Para(Heading1, "项目作品")], Items(Take(v.projectExperience, 4), ProjectItem), [Gap]);
    }
    ExtendIf(before, v.projectExperience != [], ProjectBlock(v.projectExperience));
    before := els;
    if v.education != [] {
      els := els + [Para(Heading1, "教育背景")];
      els := AppendItems(els, Take(v.education, 2), EducationItem);
      AppendTwice(before, [Para(Heading1, "教育背景")], Items(Take(v.education, 2), EducationItem));
    }
    ExtendIf(before, v.education != [], EducationBlock(v.education));
  }

  /** The main column's titles are those of its non-empty fields, in the
    * order introduction, work, projects, education. */
  lemma MainTitles(v: View)
    ensures Texts(Main(v), Heading1) ==
      TitleIf(v.selfIntroduction != "", "关于我") + TitleIf(v.workExperience != [], "工作经历")
      + TitleIf(v.projectExperience != [], "项目作品") + TitleIf(v.education != [], "教育背景")
  {
    MainWithWorkTitles(v);
    ProjectBlockTitle(v.projectExperience);
    TitlesStep(MainWithWork(v), v.projectExperience != [], ProjectBlock(v.projectExperience), Heading1, "项目作品",
      TitleIf(v.selfIntroduction != "", "关于我") + TitleIf(v.workExperience != [], "工作经历"));
    EducationBlockTitle(v.education);
    TitlesStep(MainWithProjects(v), v.education != [], EducationBlock(v.education), Heading1, "教育背景",
      TitleIf(v.selfIntroduction != "", "关于我") + TitleIf(v.workExperience != [], "工作经历")
      + TitleIf(v.projectExperience != [], "项目作品"));
  }

  lemma MainWithWorkTitles(v: View)
    ensures Texts(MainWithWork(v), Heading1) ==
      TitleIf(v.selfIntroduction != "", "关于我") + TitleIf(v.workExperience != [], "工作经历")
  {
    TextsPair(Para(Normal, Strip(v.selfIntroduction)), Gap, Heading1);
    TitledSection("关于我", Heading1, [Para(Normal, Strip(v.selfIntroduction)), Gap]);
    assert [Para(Heading1, "关于我")] + [Para(Normal, Strip(v.selfIntroduction)), Gap] == AboutBlock(v.selfIntroduction);
    OptionalTitle(v.selfIntroduction != "", AboutBlock(v.selfIntroduction), Heading1, "关于我");
    WorkBlockTitle(v.workExperience);
    TitlesStep(Optional(v.selfIntroduction != "", AboutBlock(v.selfIntroduction)),
      v.workExperience != [], WorkBlock(v.workExperience), Heading1, "工作经历",
      TitleIf(v.selfIntroduction != "", "关于我"));
  }

  lemma WorkBlockTitle(xs: seq<WorkEntry>)
    ensures Texts(WorkBlock(xs), Heading1) == ["工作经历"]
  {
    forall e: WorkEntry ensures Texts(WorkItem(e), Heading1) == [] {
      WorkItemTexts(e, Heading1);
    }
    TextsOfItems(Take(xs, 4), WorkItem, Heading1);
    TitledSection("工作经历", Heading1, Items(Take(xs, 4), WorkItem));
    TextsSingle(Gap, Heading1);
    TextsAppend([Para(Heading1, "工作经历")] + Items(Take(xs, 4), WorkItem), [Gap], Heading1);
  }

  lemma ProjectBlockTitle(xs: seq<ProjectEntry>)
    ensures Texts(ProjectBlock(xs), Heading1) == ["项目作品"]
  {
    forall p: ProjectEntry ensures Texts(ProjectItem(p), Heading1) == [] {
      ProjectItemTexts(p, Heading1);
    }
    TextsOfItems(Take(xs, 4), ProjectItem, Heading1);
    TitledSection("项目作品", Heading1, Items(Take(xs, 4), ProjectItem));
    TextsSingle(Gap, Heading1);
    TextsAppend([Para(Heading1, "项目作品")] + Items(Take(xs, 4), ProjectItem), [Gap], Heading1);
  }

  lemma EducationBlockTitle(xs: seq<EducationEntry>)
    ensures Texts(EducationBlock(xs), Heading1) == ["教育背景"]
  {
    forall e: EducationEntry ensures Texts(EducationItem(e), Heading1) == [] {
      EducationItemTexts(e, Heading1);
    }
    TextsOfItems(Take(xs, 2), EducationItem, Heading1);
    TitledSection("教育背景", Heading1, Items(Take(xs, 2), EducationItem));
  }

  /** `build_content` as a value: the header, then the sidebar and the main
    * column side by side. */
  function Content(r: Record): seq<Element> {
    var v := Read(r);
    Header(v) + [Columns(Sidebar(v), Main(v))]
  }

  /** `build_content` */
  method BuildContent(r: Record) returns (story: seq<Element>)
    ensures story == Content(r)
  {
    var v := Read(r);
    story := [];
    story := story + Header(v);
    var sidebar := BuildSidebar(v);
    var main := BuildMainContent(v);
    story := story + [Columns(sidebar, main)];
    assert [] + Header(v) == Header(v);
  }
}
