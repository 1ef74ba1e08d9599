/** The "compact" PDF template (`CompactConciseExporter`): a short header,
  * then skills, work, projects and education, each section titled by a bold
  * bracketed label and each entry packed into one or a few small lines. */
module PdfCompact {
  import opened Text
  import opened Resume
  import opened PdfElements

  /** A joined list ends with its last piece. */
  lemma {:induction false} JoinEndsWithLast(sep: String, xs: seq<String>)
    requires xs != []
    ensures |xs[|xs| - 1]| <= |Join(sep, xs)|
    ensures Join(sep, xs)[|Join(sep, xs)| - |xs[|xs| - 1]|..] == xs[|xs| - 1]
    decreases |xs|
  {
    if |xs| > 1 {
      JoinEndsWithLast(sep, xs[1..]);
      var tail := Join(sep, xs[1..]);
      var last := xs[|xs| - 1];
      assert xs[1..][|xs[1..]| - 1] == last;
      var head := xs[0] + sep;
      assert Join(sep, xs) == head + tail;
      assert (head + tail)[|head + tail| - |last|..] == tail[|tail| - |last|..];
    }
  }

  /** The raw contact fields, without labels. */
  function Contacts(v: View): (r: seq<String>)
    ensures r == [] <==> v.phone == "" && v.email == "" && v.location == ""
  {
    IfSet(v.phone) + IfSet(v.email) + IfSet(v.location)
  }

  /** `add_header`: the upper-cased name, the job title in small type, the
    * joined contacts and a spacer; there is no rule. */
  function Header(v: View): (r: seq<Element>)
    ensures 1 <= |r| <= 4 && r[|r| - 1] == Gap
    ensures v.name != "" ==> r[0] == Para(CompactName, Upper(v.name))
    ensures Contacts(v) != [] ==> |r| >= 2 && r[|r| - 2] == Para(ResumeMeta, Join(" | ", Contacts(v)))
  {
    When(v.name != "", Para(CompactName, Upper(v.name)))
    + When(v.jobTitle != "", Para(NormalSmall, v.jobTitle))
    + When(Contacts(v) != [], Para(ResumeMeta, Join(" | ", Contacts(v))))
    + [Gap]
  }

  lemma HeaderTexts(v: View, style: Style)
    requires style != CompactName && style != NormalSmall && style != ResumeMeta
    ensures Texts(Header(v), style) == []
  {
    var name := Para(CompactName, Upper(v.name));
    var title := Para(NormalSmall, v.jobTitle);
    var contact := Para(ResumeMeta, Join(" | ", Contacts(v)));
    var a := When(v.name != "", name);
    var b := When(v.jobTitle != "", title);
    var c := When(Contacts(v) != [], contact);
    assert Texts(a, style) == [] by { TextsWhen(v.name != "", name, style); }
    assert Texts(b, style) == [] by { TextsWhen(v.jobTitle != "", title, style); }
    assert Texts(c, style) == [] by { TextsWhen(Contacts(v) != [], contact, style); }
    assert Texts([Gap], style) == [] by { TextsSingle(Gap, style); }
    QuietPieces(a, b, c, [Gap], style);
  }

  /** At most fifteen skills, on one line. */
  const SkillsShown := 15

  function SkillsLine(skills: seq<String>): String {
    "【技能】" + Join(" | ", Take(skills, SkillsShown))
  }

  /** `add_skills` */
  function SkillsSection(skills: seq<String>): seq<Element> {
    [Para(Normal, SkillsLine(skills)), Gap]
  }

  /** The skills line lists the first fifteen skills and nothing after them. */
  lemma SkillsLineIgnoresTail(skills: seq<String>, more: seq<String>)
    requires |skills| >= SkillsShown
    ensures SkillsLine(skills + more) == SkillsLine(skills)
  {
    assert Take(skills + more, SkillsShown) == Take(skills, SkillsShown);
  }

  /** The date of a compact entry, with a bare `-` between the ends. It is
    * never empty, so it is always shown. */
  function CompactDate(start: String, end: String): (r: String)
    ensures r != ""
  {
    DateRange(start, end, "-")
  }

  /** The first line of a work entry: company, position and dates joined by
    * " • ". */
  function WorkHeader(e: WorkEntry): String {
    Join(" • ", IfSet(e.company.GetOr("")) + IfSet(e.position.GetOr(""))
      + [CompactDate(e.startDate.GetOr(""), e.endDate.GetOr(""))])
  }

  /** The header line always ends with the entry's dates. */
  lemma WorkHeaderEndsWithDate(e: WorkEntry)
    ensures var d := CompactDate(e.startDate.GetOr(""), e.endDate.GetOr(""));
      |d| <= |WorkHeader(e)| && WorkHeader(e)[|WorkHeader(e)| - |d|..] == d
  {
    var d := CompactDate(e.startDate.GetOr(""), e.endDate.GetOr(""));
    var parts := IfSet(e.company.GetOr("")) + IfSet(e.position.GetOr("")) + [d];
    JoinEndsWithLast(" • ", parts);
  }

  /** Each entry clipped to its first `n` characters. */
  function Clipped(xs: seq<String>, n: nat): (r: seq<String>)
    ensures |r| == |xs|
  {
    seq(|xs|, k requires 0 <= k < |xs| => Take(xs[k], n))
  }

  /** `format_work_item`: the header line, then the first two achievements,
    * each cut to eighty characters. */
  function WorkItem(e: WorkEntry): seq<Element> {
    [Para(NormalSmall, WorkHeader(e))]
    + Bullets("  ▶ ", Clipped(Take(e.achievements.GetOr([]), 2), 80), NormalSmall)
  }

  /** `format_work_item` */
  method FormatWorkItem(e: WorkEntry) returns (items: seq<Element>)
    ensures items == WorkItem(e)
  {
    items := [Para(NormalSmall, WorkHeader(e))];
    items := AppendBullets(items, "  ▶ ", Clipped(Take(e.achievements.GetOr([]), 2), 80), NormalSmall);
  }

  /** A work entry takes one line plus one per shown achievement, and the
    * `k`-th of them is the `k`-th achievement cut to eighty characters. */
  lemma WorkItemShowsAchievements(e: WorkEntry, k: nat)
    requires k < |Take(e.achievements.GetOr([]), 2)|
    ensures |WorkItem(e)| == 1 + |Take(e.achievements.GetOr([]), 2)| <= 3
    ensures WorkItem(e)[1 + k] == Para(NormalSmall, "  ▶ " + Take(e.achievements.GetOr([])[k], 80))
  {
    var all := e.achievements.GetOr([]);
    var xs := Take(all, 2);
    var shown := Clipped(xs, 80);
    assert shown[k] == Take(all[k], 80);
    assert WorkItem(e) == [Para(NormalSmall, WorkHeader(e))] + Bullets("  ▶ ", shown, NormalSmall);
    HeadThenBullet(Para(NormalSmall, WorkHeader(e)), "  ▶ ", shown, NormalSmall, k);
  }

  /** Behind a single head line, the `k`-th bullet sits at position `1 + k`. */
  lemma HeadThenBullet(head: Element, prefix: String, xs: seq<String>, style: Style, k: nat)
    requires k < |xs|
    ensures |[head] + Bullets(prefix, xs, style)| == 1 + |xs|
    ensures ([head] + Bullets(prefix, xs, style))[1 + k] == Para(style, prefix + xs[k])
  {
    BulletsEach(prefix, xs, style, k);
  }

  /** A work entry's lines are all small. */
  lemma WorkItemTexts(e: WorkEntry, style: Style)
    requires style != NormalSmall
    ensures Texts(WorkItem(e), style) == []
  {
    var shown := Clipped(Take(e.achievements.GetOr([]), 2), 80);
    TextsSingle(Para(NormalSmall, WorkHeader(e)), style);
    TextsOfBullets("  ▶ ", shown, NormalSmall, style);
    TextsAppend([Para(NormalSmall, WorkHeader(e))], Bullets("  ▶ ", shown, NormalSmall), style);
  }

  /** At most five work entries are shown. */
  function WorkSection(xs: seq<WorkEntry>): seq<Element> {
    [Para(Bold, "【工作经历】")] + Items(Take(xs, 5), WorkItem)
  }

  /** `add_work_experience` */
  method AddWorkExperience(xs: seq<WorkEntry>) returns (els: seq<Element>)
    ensures els == WorkSection(xs)
  {
    var shown := Take(xs, 5);
    els := [Para(Bold, "【工作经历】")];
    for i := 0 to |shown|
      invariant els == [Para(Bold, "【工作经历】")] + Items(shown[..i], WorkItem)
    {
      var item := FormatWorkItem(shown[i]);
      ItemsSnoc([Para(Bold, "【工作经历】")], shown, i, WorkItem);
      els := els + item + [Gap];
    }
    assert shown[..|shown|] == shown;
  }

  /** `format_project_item`: the name (with the role in parentheses when
    * there is one), then up to four technologies in brackets. */
  function ProjectItem(p: ProjectEntry): seq<Element> {
    var name := p.name.GetOr("");
    var role := p.role.GetOr("");
    var stack := p.techStack.GetOr([]);
    When(name != "", Para(NormalSmall, if role != "" then name + " (" + role + ")" else name))
    + When(stack != [], Para(NormalSmall, "  [" + Join(", ", Take(stack, 4)) + "]"))
  }

  /** A project entry's lines are all small, one for the name and one for
    * the stack, each only when that field is set. */
  lemma ProjectItemTexts(p: ProjectEntry, style: Style)
    requires style != NormalSmall
    ensures Texts(ProjectItem(p), style) == []
    ensures |ProjectItem(p)| == (if p.name.GetOr("") != "" then 1 else 0) + (if p.techStack.GetOr([]) != [] then 1 else 0)
  {
    var name := p.name.GetOr("");
    var role := p.role.GetOr("");
    var stack := p.techStack.GetOr([]);
    var a := Para(NormalSmall, if role != "" then name + " (" + role + ")" else name);
    var b := Para(NormalSmall, "  [" + Join(", ", Take(stack, 4)) + "]");
    TextsWhen(name != "", a, style);
    TextsWhen(stack != [], b, style);
    TextsAppend(When(name != "", a), When(stack != [], b), style);
  }

  /** At most three projects are shown. */
  function ProjectSection(xs: seq<ProjectEntry>): seq<Element> {
    [Para(Bold, "【项目经历】")] + Items(Take(xs, 3), ProjectItem)
  }

  /** `add_projects` */
  method AddProjects(xs: seq<ProjectEntry>) returns (els: seq<Element>)
    ensures els == ProjectSection(xs)
  {
    els := AppendItems([Para(Bold, "【项目经历】")], Take(xs, 3), ProjectItem);
  }

  /** Degree and major of an education entry: "degree major" when there is
    * a degree, otherwise the major alone. */
  function DegreeMajor(e: EducationEntry): seq<String> {
    var degree := e.degree.GetOr("");
    var major := e.major.GetOr("");
    if degree != "" || major != "" then [if degree != "" then degree + " " + major else major] else []
  }

  /** The one line of an education entry: school, degree and major, dates. */
  function EducationInfo(e: EducationEntry): String {
    Join(" • ", IfSet(e.school.GetOr("")) + DegreeMajor(e)
      + [CompactDate(e.startDate.GetOr(""), e.endDate.GetOr(""))])
  }

  /** The education line always ends with the entry's dates. */
  lemma EducationInfoEndsWithDate(e: EducationEntry)
    ensures var d := CompactDate(e.startDate.GetOr(""), e.endDate.GetOr(""));
      |d| <= |EducationInfo(e)| && EducationInfo(e)[|EducationInfo(e)| - |d|..] == d
  {
    var d := CompactDate(e.startDate.GetOr(""), e.endDate.GetOr(""));
    JoinEndsWithLast(" • ", IfSet(e.school.GetOr("")) + DegreeMajor(e) + [d]);
  }

  /** One small line per education entry, without spacers. */
  function EducationLines(xs: seq<EducationEntry>): (r: seq<Element>)
    ensures |r| == |xs|
  {
    if xs == [] then [] else EducationLines(xs[..|xs| - 1]) + [Para(NormalSmall, EducationInfo(xs[|xs| - 1]))]
  }

  /** The `k`-th line is the `k`-th entry's info. */
  lemma {:induction false} EducationLinesEach(xs: seq<EducationEntry>, k: nat)
    requires k < |xs|
    ensures EducationLines(xs)[k] == Para(NormalSmall, EducationInfo(xs[k]))
    decreases |xs|
  {
    if k < |xs| - 1 {
      EducationLinesEach(xs[..|xs| - 1], k);
    }
  }

  lemma {:induction false} EducationLinesTexts(xs: seq<EducationEntry>, style: Style)
    requires style != NormalSmall
    ensures Texts(EducationLines(xs), style) == []
    decreases |xs|
  {
    if xs != [] {
      var line := Para(NormalSmall, EducationInfo(xs[|xs| - 1]));
      EducationLinesTexts(xs[..|xs| - 1], style);
      TextsSingle(line, style);
      TextsAppend(EducationLines(xs[..|xs| - 1]), [line], style);
    }
  }

  /** One more entry adds its line at the end of whatever precedes the lines. */
  lemma EducationLinesSnoc(pre: seq<Element>, xs: seq<EducationEntry>, i: nat)
    requires i < |xs|
    ensures pre + EducationLines(xs[..i + 1]) == pre + EducationLines(xs[..i]) + [Para(NormalSmall, EducationInfo(xs[i]))]
  {
    assert xs[..i + 1][..i] == xs[..i];
  }

  /** At most two education entries are shown. */
  function EducationSection(xs: seq<EducationEntry>): seq<Element> {
    [Para(Bold, "【教育背景】")] + EducationLines(Take(xs, 2))
  }

  /** `add_education` */
  method AddEducation(xs: seq<EducationEntry>) returns (els: seq<Element>)
    ensures els == EducationSection(xs)
  {
    var shown := Take(xs, 2);
    els := [Para(Bold, "【教育背景】")];
    for i := 0 to |shown|
      invariant els == [Para(Bold, "【教育背景】")] + EducationLines(shown[..i])
    {
      EducationLinesSnoc([Para(Bold, "【教育背景】")], shown, i);
      els := els + [Para(NormalSmall, EducationInfo(shown[i]))];
    }
    assert shown[..|shown|] == shown;
  }

  /** The education section is its label and one line per shown entry. */
  lemma EducationSectionShape(xs: seq<EducationEntry>, k: nat)
    requires k < |xs| && k < 2
    ensures |EducationSection(xs)| == 1 + |Take(xs, 2)|
    ensures EducationSection(xs)[1 + k] == Para(NormalSmall, EducationInfo(xs[k]))
  {
    EducationLinesEach(Take(xs, 2), k);
  }

  /** `build_content` after each of its steps. */
  function WithSkills(v: View): seq<Element> {
    Header(v) + Optional(v.skills != [], SkillsSection(v.skills))
  }

  function WithWork(v: View): seq<Element> {
    WithSkills(v) + Optional(v.workExperience != [], WorkSection(v.workExperience))
  }

  function WithProjects(v: View): seq<Element> {
    WithWork(v) + Optional(v.projectExperience != [], ProjectSection(v.projectExperience))
  }

  /** `build_content` as a value. */
  function Content(r: Record): seq<Element> {
    var v := Read(r);
    WithProjects(v) + Optional(v.education != [], EducationSection(v.education))
  }

  /** `build_content` */
  method BuildContent(r: Record) returns (story: seq<Element>)
    ensures story == Content(r)
  {
    var v := Read(r);
    story := Header(v);
    var before := story;
    if v.skills != [] {
      story := story + SkillsSection(v.skills);
    }
    ExtendIf(before, v.skills != [], SkillsSection(v.skills));
    assert story == WithSkills(v);
    before := story;
    if v.workExperience != [] {
      var section := AddWorkExperience(v.workExperience);
      story := story + section;
    }
    ExtendIf(before, v.workExperience != [], WorkSection(v.workExperience));
    assert story == WithWork(v);
    before := story;
    if v.projectExperience != [] {
      var section := AddProjects(v.projectExperience);
      story := story + section;
    }
    ExtendIf(before, v.projectExperience != [], ProjectSection(v.projectExperience));
    assert story == WithProjects(v);
    before := story;
    if v.education != [] {
      var section := AddEducation(v.education);
      story := story + section;
    }
    ExtendIf(before, v.education != [], EducationSection(v.education));
  }

  /** The bold labels are those of the non-empty sections, in the order
    * work, projects, education (skills carry their label inside their line). */
  lemma SectionOrder(r: Record)
    ensures Texts(Content(r), Bold) ==
      var v := Read(r);
      TitleIf(v.workExperience != [], "【工作经历】")
      + TitleIf(v.projectExperience != [], "【项目经历】")
      + TitleIf(v.education != [], "【教育背景】")
  {
    var v := Read(r);
    TitlesWithProjects(v);
    EducationLinesTexts(Take(v.education, 2), Bold);
    TitledSection("【教育背景】", Bold, EducationLines(Take(v.education, 2)));
    TitlesStep(WithProjects(v), v.education != [], EducationSection(v.education), Bold, "【教育背景】",
      TitleIf(v.workExperience != [], "【工作经历】")
        + TitleIf(v.projectExperience != [], "【项目经历】"));
  }

  lemma TitlesWithSkills(v: View)
    ensures Texts(WithSkills(v), Bold) == []
  {
    HeaderTexts(v, Bold);
    TextsPair(Para(Normal, SkillsLine(v.skills)), Gap, Bold);
    TextsAppend(Header(v), Optional(v.skills != [], SkillsSection(v.skills)), Bold);
  }

  lemma TitlesWithWork(v: View)
    ensures Texts(WithWork(v), Bold) == TitleIf(v.workExperience != [], "【工作经历】")
  {
    TitlesWithSkills(v);
    forall e: WorkEntry ensures Texts(WorkItem(e), Bold) == [] {
      WorkItemTexts(e, Bold);
    }
    TextsOfItems(Take(v.workExperience, 5), WorkItem, Bold);
    TitledSection("【工作经历】", Bold, Items(Take(v.workExperience, 5), WorkItem));
    TitlesStep(WithSkills(v), v.workExperience != [], WorkSection(v.workExperience), Bold, "【工作经历】", []);
    assert [] + TitleIf(v.workExperience != [], "【工作经历】") == TitleIf(v.workExperience != [], "【工作经历】");
  }

  lemma TitlesWithProjects(v: View)
    ensures Texts(WithProjects(v), Bold) ==
      TitleIf(v.workExperience != [], "【工作经历】")
      + TitleIf(v.projectExperience != [], "【项目经历】")
  {
    TitlesWithWork(v);
    forall p: ProjectEntry ensures Texts(ProjectItem(p), Bold) == [] {
      ProjectItemTexts(p, Bold);
    }
    TextsOfItems(Take(v.projectExperience, 3), ProjectItem, Bold);
    TitledSection("【项目经历】", Bold, Items(Take(v.projectExperience, 3), ProjectItem));
    TitlesStep(WithWork(v), v.projectExperience != [], ProjectSection(v.projectExperience), Bold, "【项目经历】",
      TitleIf(v.workExperience != [], "【工作经历】"));
  }
}
