/** The HTML renderer (`HTMLExporter.generate`): a fixed page head, one
  * section per non-empty field in a fixed order, and a fixed tail. User text
  * goes through `html.escape`, except the phone, e-mail, location and dates. */
module HtmlExport {
  import opened Wrappers
  import opened Text
  import opened Resume
  import opened PdfElements

  // ---------------------------------------------------------------------
  // html.escape(s, quote=True)

  /** The reference that `html.escape` writes for one character. Replacing
    * `&` first and then the other four, as `html.escape` does, is the same
    * as mapping every character on its own. */
  function EscapeChar(c: char): String {
    if c == '&' then "&amp;"
    else if c == '<' then "&lt;"
    else if c == '>' then "&gt;"
    else if c == '"' then "&quot;"
    else if c == '\'' then "&#x27;"
    else [c]
  }

  /** The characters that may not appear raw in escaped text. */
  predicate Markup(c: char) {
    c == '<' || c == '>' || c == '"' || c == '\''
  }

  /** `html.escape` */
  function Escape(s: String): (r: String)
    ensures |s| <= |r|
  {
    if s == [] then [] else EscapeChar(s[0]) + Escape(s[1..])
  }

  /** No markup character survives escaping. */
  lemma {:induction false} EscapeHasNoMarkup(s: String)
    ensures forall k :: 0 <= k < |Escape(s)| ==> !Markup(Escape(s)[k])
    decreases |s|
  {
    if s != [] {
      EscapeHasNoMarkup(s[1..]);
      var e := EscapeChar(s[0]);
      forall k | 0 <= k < |Escape(s)|
        ensures !Markup(Escape(s)[k])
      {
        if k >= |e| {
          assert Escape(s)[k] == Escape(s[1..])[k - |e|];
        }
      }
    }
  }

  /** Decoding the five references back to their characters (the part of
    * `html.unescape` that undoes `html.escape`). */
  function Unescape(s: String): String
    decreases |s|
  {
    if s == [] then []
    else if StartsWith(s, "&amp;") then "&" + Unescape(s[5..])
    else if StartsWith(s, "&lt;") then "<" + Unescape(s[4..])
    else if StartsWith(s, "&gt;") then ">" + Unescape(s[4..])
    else if StartsWith(s, "&quot;") then "\"" + Unescape(s[6..])
    else if StartsWith(s, "&#x27;") then "'" + Unescape(s[6..])
    else [s[0]] + Unescape(s[1..])
  }

  /** A text that differs from `p` at some position does not start with `p`. */
  lemma DiffersAt(s: String, p: String, k: nat)
    requires k < |p| && k < |s| && s[k] != p[k]
    ensures !StartsWith(s, p)
  {
    if |p| <= |s| {
      assert s[..|p|][k] == s[k];
    }
  }

  /** One escaped character followed by anything decodes to that character
    * followed by the decoding of the rest. */
  lemma UnescapeStep(c: char, rest: String)
    ensures Unescape(EscapeChar(c) + rest) == [c] + Unescape(rest)
  {
    var e := EscapeChar(c);
    var s := e + rest;
    assert s[|e|..] == rest;
    assert s[..|e|] == e;
    if c == '&' {
      assert StartsWith(s, "&amp;");
    } else if c == '<' {
      DiffersAt(s, "&amp;", 1);
      assert StartsWith(s, "&lt;");
    } else if c == '>' {
      DiffersAt(s, "&amp;", 1);
      DiffersAt(s, "&lt;", 1);
      assert StartsWith(s, "&gt;");
    } else if c == '"' {
      DiffersAt(s, "&amp;", 1);
      DiffersAt(s, "&lt;", 1);
      DiffersAt(s, "&gt;", 1);
      assert StartsWith(s, "&quot;");
    } else if c == '\'' {
      DiffersAt(s, "&amp;", 1);
      DiffersAt(s, "&lt;", 1);
      DiffersAt(s, "&gt;", 1);
      DiffersAt(s, "&quot;", 1);
      assert StartsWith(s, "&#x27;");
    } else {
      DiffersAt(s, "&amp;", 0);
      DiffersAt(s, "&lt;", 0);
      DiffersAt(s, "&gt;", 0);
      DiffersAt(s, "&quot;", 0);
      DiffersAt(s, "&#x27;", 0);
    }
  }

  /** Escaping loses nothing: decoding the escaped text gives the text back. */
  lemma {:induction false} UnescapeEscape(s: String)
    ensures Unescape(Escape(s)) == s
    decreases |s|
  {
    if s != [] {
      UnescapeStep(s[0], Escape(s[1..]));
      UnescapeEscape(s[1..]);
      assert [s[0]] + s[1..] == s;
    }
  }

  /** Text without any of the five special characters is left as it is. */
  lemma {:induction false} EscapePlain(s: String)
    requires forall k :: 0 <= k < |s| ==> !Markup(s[k]) && s[k] != '&'
    ensures Escape(s) == s
    decreases |s|
  {
    if s != [] {
      EscapePlain(s[1..]);
      assert [s[0]] + s[1..] == s;
    }
  }

  // ---------------------------------------------------------------------
  // Repeated fragments

  /** `''.join(f(x) for x in xs)`, or a `+=` loop over `xs`. */
  function Each<T>(xs: seq<T>, f: T -> String): String {
    if xs == [] then [] else Each(xs[..|xs| - 1], f) + f(xs[|xs| - 1])
  }

  /** Fragments keep the order of their list: joining two lists is joining
    * their fragments. */
  lemma {:induction false} EachAppend<T>(xs: seq<T>, ys: seq<T>, f: T -> String)
    ensures Each(xs + ys, f) == Each(xs, f) + Each(ys, f)
    decreases |ys|
  {
    if ys == [] {
      assert xs + ys == xs;
    } else {
      var init := ys[..|ys| - 1];
      assert (xs + ys)[..|xs + ys| - 1] == xs + init;
      EachAppend(xs, init, f);
    }
  }

  lemma EachSnoc<T>(xs: seq<T>, i: nat, f: T -> String)
    requires i < |xs|
    ensures Each(xs[..i + 1], f) == Each(xs[..i], f) + f(xs[i])
  {
    assert xs[..i + 1][..i] == xs[..i];
  }

  /** A `+=` loop over `xs`, starting from `acc`. */
  method AppendEach<T>(acc: String, xs: seq<T>, f: T -> String) returns (out: String)
    ensures out == acc + Each(xs, f)
  {
    out := acc;
    for i := 0 to |xs|
      invariant out == acc + Each(xs[..i], f)
    {
      EachSnoc(xs, i, f);
      out := out + f(xs[i]);
    }
    assert xs[..|xs|] == xs;
  }

  /** A `+=` loop over `xs`, starting from the empty string. */
  method CollectEach<T>(xs: seq<T>, f: T -> String) returns (out: String)
    ensures out == Each(xs, f)
  {
    out := "";
    for i := 0 to |xs|
      invariant out == Each(xs[..i], f)
    {
      EachSnoc(xs, i, f);
      out := out + f(xs[i]);
    }
    assert xs[..|xs|] == xs;
  }

  /** `[x] if cond else []` */
  function Maybe<T>(cond: bool, x: T): (r: seq<T>)
    ensures |r| <= 1
  {
    if cond then [x] else []
  }

  /** A conditional `+=` step: the fragment of `x` is added exactly when `x`
    * joins the list. */
  lemma EachGrow<T>(xs: seq<T>, cond: bool, x: T, f: T -> String)
    ensures Each(xs + Maybe(cond, x), f) == if cond then Each(xs, f) + f(x) else Each(xs, f)
  {
    if cond {
      assert (xs + [x])[..|xs|] == xs;
    } else {
      assert xs + [] == xs;
    }
  }

  // ---------------------------------------------------------------------
  // The page

  const Doctype := "<!DOCTYPE html>"

  /** The CSS rules inside `<style>`: a fixed text that does not depend on
    * the résumé; its rules are not spelled out here. */
  const StyleSheet: String

  /** The two `<meta>` lines of the head (character set and viewport), each
    * indented by four spaces: fixed text whose wording is not spelled out
    * here. */
  const MetaTags: String

  /** `n` spaces of indentation. */
  function Indent(n: nat): (r: String)
    ensures |r| == n && forall k :: 0 <= k < n ==> r[k] == ' '
  {
    if n == 0 then [] else " " + Indent(n - 1)
  }

  /** The head of the page after the doctype and up to the contact block;
    * `name` and `jobTitle` are already escaped. */
  function Top(name: String, jobTitle: String): String {
    "\n<html lang=\"zh-CN\">\n<head>\n" + MetaTags
    + Indent(4) + "<title>" + name + " - 简历</title>\n" + Indent(4) + "<style>\n" + StyleSheet
    + Indent(4) + "</style>\n</head>\n<body>\n"
    + Indent(4) + "<div class=\"container\">\n" + Indent(8) + "<div class=\"header\">\n"
    + Indent(12) + "<h1>" + name + "</h1>\n"
    + Indent(12) + "<p class=\"job-title\">" + jobTitle + "</p>\n"
  }

  /** One contact field behind its icon. */
  function Span(icon: String, field: String): String {
    "<span>" + icon + field + "</span>"
  }

  function ContactLine(icon: String, field: String): String {
    Indent(16) + Span(icon, field) + "\n"
  }

  /** The contact block, which takes the fields as they are. */
  function ContactBlock(phone: String, email: String, location: String): String {
    Indent(12) + "<div class=\"contact\">\n"
    + ContactLine("📱 ", phone) + ContactLine("✉️ ", email) + ContactLine("📍 ", location)
    + (Indent(12) + "</div>\n")
  }

  const Bottom := Indent(8) + "</div>\n" + Indent(8) + "<div class=\"content\">\n"

  const Closing := "</html>\n"

  const Tail := TailOpen + Closing

  const TailOpen := "\n" + Indent(8) + "</div>\n" + Indent(4) + "</div>\n</body>\n"

  /** The header after the doctype: the title block `top`, the contact
    * block and the opening of the content. */
  function Header(top: String, phone: String, email: String, location: String): String {
    top + ContactBlock(phone, email, location) + Bottom
  }

  /** The page around a header and the sections. */
  function Layout(header: String, body: String): String {
    Doctype + header + body + Tail
  }

  /** The frame around every section: its title and the markup under it. */
  function Frame(title: String, body: String): String {
    "\n" + Indent(12) + "<div class=\"section\">\n" + Indent(16) + "<h2>" + title + "</h2>\n" + Indent(16)
    + body + "\n" + Indent(12) + "</div>\n"
  }

  function SkillTag(s: String): String {
    "<span class=\"skill-tag\">" + Escape(s) + "</span>"
  }

  function Bullet(s: String): String {
    "<p>• " + Escape(s) + "</p>"
  }

  /** The head of an item: title, dates (not escaped) and subtitle. */
  function ItemHead(title: String, date: String, subtitle: String): String {
    "\n" + Indent(12) + "<div class=\"item\">\n" + Indent(16) + "<div class=\"item-header\">\n"
    + Indent(20) + "<span class=\"item-title\">" + title + "</span>\n"
    + Indent(20) + "<span class=\"item-date\">" + date + "</span>\n" + Indent(16) + "</div>\n"
    + Indent(16) + "<p class=\"item-subtitle\">" + subtitle + "</p>\n"
  }

  function Achievement(s: String): String {
    "<p class=\"achievement\">" + Escape(s) + "</p>"
  }

  /** The part of a work entry before its achievements. */
  function WorkItemTop(e: WorkEntry): String {
    ItemHead(Escape(e.company.GetOr("")), DateRange(e.startDate.GetOr(""), e.endDate.GetOr(""), " - "), Escape(e.position.GetOr("")))
    + Indent(16) + "<p class=\"item-content\">" + Escape(e.description.GetOr("")) + "</p>\n"
  }

  /** A work entry shows at most three achievements. */
  function WorkItemHtml(e: WorkEntry): String {
    WorkItemTop(e) + Each(Take(e.achievements.GetOr([]), 3), Achievement) + "</div>"
  }

  /** One work entry, with its inner loop over the achievements. */
  method FormatWorkItem(e: WorkEntry) returns (out: String)
    ensures out == WorkItemHtml(e)
  {
    out := AppendEach(WorkItemTop(e), Take(e.achievements.GetOr([]), 3), Achievement);
    out := out + "</div>";
  }

  /** Achievements after the third never reach the page. */
  lemma WorkItemIgnoresLaterAchievements(e: WorkEntry, shown: seq<String>, more: seq<String>)
    requires |shown| >= 3 && e.achievements == Some(shown + more)
    ensures WorkItemHtml(e) == WorkItemHtml(e.(achievements := Some(shown)))
  {
    assert Take(shown + more, 3) == Take(shown, 3);
  }

  function ProjectItemHtml(p: ProjectEntry): String {
    ItemHead(Escape(p.name.GetOr("")), DateRange(p.startDate.GetOr(""), p.endDate.GetOr(""), " - "), Escape(p.role.GetOr("")))
    + Indent(16) + "<p class=\"item-content\">" + Escape(p.description.GetOr("")) + "</p>\n" + Indent(12) + "</div>\n"
  }

  function EducationItemHtml(e: EducationEntry): String {
    ItemHead(Escape(e.school.GetOr("")), DateRange(e.startDate.GetOr(""), e.endDate.GetOr(""), " - "),
      Escape(e.degree.GetOr("")) + " " + Escape(e.major.GetOr("")))
    + Indent(12) + "</div>\n"
  }

  /** The `+=` loop over the work entries. */
  method WorkHtml(xs: seq<WorkEntry>) returns (out: String)
    ensures out == Each(xs, WorkItemHtml)
  {
    out := "";
    for i := 0 to |xs|
      invariant out == Each(xs[..i], WorkItemHtml)
    {
      var item := FormatWorkItem(xs[i]);
      EachSnoc(xs, i, WorkItemHtml);
      out := out + item;
    }
    assert xs[..|xs|] == xs;
  }

  /** A section of the page: its title and the markup under it. */
  datatype Section = Section(title: String, body: String)

  function SectionHtml(s: Section): String {
    Frame(s.title, s.body)
  }

  function IntroPart(text: String): Section {
    Section("个人简介", "<p>" + Escape(text) + "</p>")
  }

  /** Skills, projects, schools, certificates and awards are shown in full,
    * in order; work entries go through `WorkItemHtml`. */
  function SkillsPart(skills: seq<String>): Section {
    Section("专业技能", "<div class=\"skills\">" + Each(skills, SkillTag) + "</div>")
  }

  function WorkPart(jobs: seq<WorkEntry>): Section {
    Section("工作经历", Each(jobs, WorkItemHtml))
  }

  function ProjectsPart(projects: seq<ProjectEntry>): Section {
    Section("项目经历", Each(projects, ProjectItemHtml))
  }

  function EducationPart(schools: seq<EducationEntry>): Section {
    Section("教育背景", Each(schools, EducationItemHtml))
  }

  function CertificatesPart(certificates: seq<String>): Section {
    Section("证书资质", Each(certificates, Bullet))
  }

  function AwardsPart(awards: seq<String>): Section {
    Section("荣誉奖励", Each(awards, Bullet))
  }

  /** The sections `generate` has added after each of its steps. */
  function UpToIntro(v: View): seq<Section> {
    Maybe(v.selfIntroduction != "", IntroPart(v.selfIntroduction))
  }

  function UpToSkills(v: View): seq<Section> {
    UpToIntro(v) + Maybe(v.skills != [], SkillsPart(v.skills))
  }

  function UpToWork(v: View): seq<Section> {
    UpToSkills(v) + Maybe(v.workExperience != [], WorkPart(v.workExperience))
  }

  function UpToProjects(v: View): seq<Section> {
    UpToWork(v) + Maybe(v.projectExperience != [], ProjectsPart(v.projectExperience))
  }

  function UpToEducation(v: View): seq<Section> {
    UpToProjects(v) + Maybe(v.education != [], EducationPart(v.education))
  }

  function UpToCertificates(v: View): seq<Section> {
    UpToEducation(v) + Maybe(v.certificates != [], CertificatesPart(v.certificates))
  }

  /** The sections on the page, in page order. */
  function Sections(v: View): seq<Section> {
    UpToCertificates(v) + Maybe(v.awards != [], AwardsPart(v.awards))
  }

  function Titles(ss: seq<Section>): (r: seq<String>)
    ensures |r| == |ss|
  {
    if ss == [] then [] else Titles(ss[..|ss| - 1]) + [ss[|ss| - 1].title]
  }

  lemma {:induction false} TitlesAppend(a: seq<Section>, b: seq<Section>)
    ensures Titles(a + b) == Titles(a) + Titles(b)
    decreases |b|
  {
    if b == [] {
      assert a + b == a;
    } else {
      assert (a + b)[..|a + b| - 1] == a + b[..|b| - 1];
      TitlesAppend(a, b[..|b| - 1]);
    }
  }

  lemma TitlesMaybe(cond: bool, s: Section)
    ensures Titles(Maybe(cond, s)) == TitleIf(cond, s.title)
  {
    if cond {
      assert [s][..0] == [];
    }
  }

  /** One more conditional section adds its title, if shown, to the titles so far. */
  lemma TitlesGrow(ss: seq<Section>, titles: seq<String>, cond: bool, s: Section)
    requires Titles(ss) == titles
    ensures Titles(ss + Maybe(cond, s)) == titles + TitleIf(cond, s.title)
  {
    TitlesAppend(ss, Maybe(cond, s));
    TitlesMaybe(cond, s);
  }

  lemma TitlesUpToSkills(v: View)
    ensures Titles(UpToSkills(v)) ==
      TitleIf(v.selfIntroduction != "", "个人简介") + TitleIf(v.skills != [], "专业技能")
  {
    TitlesMaybe(v.selfIntroduction != "", IntroPart(v.selfIntroduction));
    TitlesGrow(UpToIntro(v), TitleIf(v.selfIntroduction != "", "个人简介"), v.skills != [], SkillsPart(v.skills));
  }

  lemma TitlesUpToWork(v: View)
    ensures Titles(UpToWork(v)) ==
      TitleIf(v.selfIntroduction != "", "个人简介") + TitleIf(v.skills != [], "专业技能")
      + TitleIf(v.workExperience != [], "工作经历")
  {
    TitlesUpToSkills(v);
    TitlesGrow(UpToSkills(v), Titles(UpToSkills(v)), v.workExperience != [], WorkPart(v.workExperience));
  }

  lemma TitlesUpToProjects(v: View)
    ensures Titles(UpToProjects(v)) ==
      TitleIf(v.selfIntroduction != "", "个人简介") + TitleIf(v.skills != [], "专业技能")
      + TitleIf(v.workExperience != [], "工作经历") + TitleIf(v.projectExperience != [], "项目经历")
  {
    TitlesUpToWork(v);
    TitlesGrow(UpToWork(v), Titles(UpToWork(v)), v.projectExperience != [], ProjectsPart(v.projectExperience));
  }

  lemma TitlesUpToEducation(v: View)
    ensures Titles(UpToEducation(v)) ==
      TitleIf(v.selfIntroduction != "", "个人简介") + TitleIf(v.skills != [], "专业技能")
      + TitleIf(v.workExperience != [], "工作经历") + TitleIf(v.projectExperience != [], "项目经历")
      + TitleIf(v.education != [], "教育背景")
  {
    TitlesUpToProjects(v);
    TitlesGrow(UpToProjects(v), Titles(UpToProjects(v)), v.education != [], EducationPart(v.education));
  }

  lemma TitlesUpToCertificates(v: View)
    ensures Titles(UpToCertificates(v)) ==
      TitleIf(v.selfIntroduction != "", "个人简介") + TitleIf(v.skills != [], "专业技能")
      + TitleIf(v.workExperience != [], "工作经历") + TitleIf(v.projectExperience != [], "项目经历")
      + TitleIf(v.education != [], "教育背景") + TitleIf(v.certificates != [], "证书资质")
  {
    TitlesUpToEducation(v);
    TitlesGrow(UpToEducation(v), Titles(UpToEducation(v)), v.certificates != [], CertificatesPart(v.certificates));
  }

  /** The section titles on the page are those of the non-empty fields, in
    * the order introduction, skills, work, projects, education, certificates,
    * awards. */
  lemma SectionOrder(v: View)
    ensures
      Titles(Sections(v)) ==
        TitleIf(v.selfIntroduction != "", "个人简介")
        + TitleIf(v.skills != [], "专业技能")
        + TitleIf(v.workExperience != [], "工作经历")
        + TitleIf(v.projectExperience != [], "项目经历")
        + TitleIf(v.education != [], "教育背景")
        + TitleIf(v.certificates != [], "证书资质")
        + TitleIf(v.awards != [], "荣誉奖励")
  {
    TitlesUpToCertificates(v);
    TitlesGrow(UpToCertificates(v), Titles(UpToCertificates(v)), v.awards != [], AwardsPart(v.awards));
  }

  /** `HTMLExporter.generate` as a value: the head, the shown sections and the tail. */
  function Page(r: Record): (page: String)
    ensures |page| >= |Doctype| && page[..|Doctype|] == Doctype
    ensures |page| >= |Closing| && page[|page| - |Closing|..] == Closing
  {
    var v := Read(r);
    PageFrame(Header(Top(Escape(v.name), Escape(v.jobTitle)), v.phone, v.email, v.location), Body(v));
    PageOf(v)
  }

  /** The page for what the reader sees of the record: `name` and
    * `job_title` are escaped, the contacts are not. */
  function PageOf(v: View): String {
    Layout(Header(Top(Escape(v.name), Escape(v.jobTitle)), v.phone, v.email, v.location), Body(v))
  }

  /** The shown sections, one after the other. */
  function Body(v: View): String {
    Each(Sections(v), SectionHtml)
  }

  /** `HTMLExporter.generate` */
  method Generate(r: Record) returns (html: String)
    ensures html == Page(r)
  {
    var v := Read(r);
    var sections := RenderSections(v);
    var header := Header(Top(Escape(v.name), Escape(v.jobTitle)), v.phone, v.email, v.location);
    html := Doctype + header + sections + Tail;
  }

  /** A conditional `+=` step of a loop-free chain: `part` is added exactly
    * when `x` joins the list. */
  method AppendIf<T>(acc: String, ghost xs: seq<T>, f: T -> String, cond: bool, x: T, part: String)
    returns (out: String)
    requires acc == Each(xs, f)
    requires cond ==> part == f(x)
    ensures out == Each(xs + Maybe(cond, x), f)
  {
    EachGrow(xs, cond, x, f);
    out := if cond then acc + part else acc;
  }

  // The section steps of `generate`: each appends its section to the page
  // when its field is non-empty.

  method AddIntro(v: View) returns (html: String)
    ensures html == Each(UpToIntro(v), SectionHtml)
  {
    var part := "";
    if v.selfIntroduction != "" {
      part := Frame("个人简介", "<p>" + Escape(v.selfIntroduction) + "</p>");
    }
    html := AppendIf("", [], SectionHtml, v.selfIntroduction != "", IntroPart(v.selfIntroduction), part);
    assert [] + UpToIntro(v) == UpToIntro(v);
  }

  method AddSkills(v: View, acc: String) returns (html: String)
    requires acc == Each(UpToIntro(v), SectionHtml)
    ensures html == Each(UpToSkills(v), SectionHtml)
  {
    var part := "";
    if v.skills != [] {
      var tags := Each(v.skills, SkillTag);
      part := Frame("专业技能", "<div class=\"skills\">" + tags + "</div>");
    }
    html := AppendIf(acc, UpToIntro(v), SectionHtml, v.skills != [], SkillsPart(v.skills), part);
  }

  method AddWork(v: View, acc: String) returns (html: String)
    requires acc == Each(UpToSkills(v), SectionHtml)
    ensures html == Each(UpToWork(v), SectionHtml)
  {
    var part := "";
    if v.workExperience != [] {
      var items := WorkHtml(v.workExperience);
      part := Frame("工作经历", items);
    }
    html := AppendIf(acc, UpToSkills(v), SectionHtml, v.workExperience != [], WorkPart(v.workExperience), part);
  }

  method AddProjects(v: View, acc: String) returns (html: String)
    requires acc == Each(UpToWork(v), SectionHtml)
    ensures html == Each(UpToProjects(v), SectionHtml)
  {
    var part := "";
    if v.projectExperience != [] {
      var items := CollectEach(v.projectExperience, ProjectItemHtml);
      part := Frame("项目经历", items);
    }
    html := AppendIf(acc, UpToWork(v), SectionHtml, v.projectExperience != [], ProjectsPart(v.projectExperience), part);
  }

  method AddEducation(v: View, acc: String) returns (html: String)
    requires acc == Each(UpToProjects(v), SectionHtml)
    ensures html == Each(UpToEducation(v), SectionHtml)
  {
    var part := "";
    if v.education != [] {
      var items := CollectEach(v.education, EducationItemHtml);
      part := Frame("教育背景", items);
    }
    html := AppendIf(acc, UpToProjects(v), SectionHtml, v.education != [], EducationPart(v.education), part);
  }

  method AddCertificates(v: View, acc: String) returns (html: String)
    requires acc == Each(UpToEducation(v), SectionHtml)
    ensures html == Each(UpToCertificates(v), SectionHtml)
  {
    var part := "";
    if v.certificates != [] {
      part := Frame("证书资质", Each(v.certificates, Bullet));
    }
    html := AppendIf(acc, UpToEducation(v), SectionHtml, v.certificates != [], CertificatesPart(v.certificates), part);
  }

  method AddAwards(v: View, acc: String) returns (html: String)
    requires acc == Each(UpToCertificates(v), SectionHtml)
    ensures html == Each(Sections(v), SectionHtml)
  {
    var part := "";
    if v.awards != [] {
      part := Frame("荣誉奖励", Each(v.awards, Bullet));
    }
    html := AppendIf(acc, UpToCertificates(v), SectionHtml, v.awards != [], AwardsPart(v.awards), part);
  }

  /** The sections of the page, in the order `generate` writes them. */
  method RenderSections(v: View) returns (html: String)
    ensures html == Each(Sections(v), SectionHtml)
  {
    html := AddIntro(v);
    html := AddSkills(v, html);
    html := AddWork(v, html);
    html := AddProjects(v, html);
    html := AddEducation(v, html);
    html := AddCertificates(v, html);
    html := AddAwards(v, html);
  }

  /** A text starts with the first piece it was built from. */
  lemma StartsWithFirst(a: String, b: String, c: String, d: String)
    ensures |a + b + c + d| >= |a| && (a + b + c + d)[..|a|] == a
  {
    assert (a + b + c + d)[..|a|] == (a + b)[..|a|];
  }

  /** A text ends with the last piece it was built from. */
  lemma EndsWithLast(a: String, b: String, c: String)
    ensures |a + (b + c)| >= |c| && (a + (b + c))[|a + (b + c)| - |c|..] == c
  {
  }

  /** Whatever the header and the sections, the page starts with the doctype
    * and ends by closing the html element. */
  lemma PageFrame(header: String, body: String)
    ensures |Layout(header, body)| >= |Doctype| && Layout(header, body)[..|Doctype|] == Doctype
    ensures |Layout(header, body)| >= |Closing|
    ensures Layout(header, body)[|Layout(header, body)| - |Closing|..] == Closing
  {
    StartsWithFirst(Doctype, header, body, Tail);
    EndsWithLast(Doctype + header + body, TailOpen, Closing);
  }

  lemma ContainsSelf(s: String)
    ensures Contains(s, s)
  {
    assert ContainsAt(s, s, 0);
  }

  lemma ContainsLeft(a: String, b: String, sub: String)
    requires Contains(a, sub)
    ensures Contains(a + b, sub)
  {
    var i :| 0 <= i <= |a| - |sub| && ContainsAt(a, sub, i);
    assert (a + b)[i..i + |sub|] == a[i..i + |sub|];
    assert ContainsAt(a + b, sub, i);
  }

  lemma ContainsRight(a: String, b: String, sub: String)
    requires Contains(b, sub)
    ensures Contains(a + b, sub)
  {
    var i :| 0 <= i <= |b| - |sub| && ContainsAt(b, sub, i);
    assert (a + b)[|a| + i..|a| + i + |sub|] == b[i..i + |sub|];
    assert ContainsAt(a + b, sub, |a| + i);
  }

  /** `b` occurs in `a + b + c`. */
  lemma ContainsMiddle(a: String, b: String, c: String)
    ensures Contains(a + b + c, b)
  {
    ContainsSelf(b);
    ContainsRight(a, b, b);
    ContainsLeft(a + b, c, b);
  }

  /** Each contact field sits in the contact block as given. */
  lemma ContactBlockShowsFields(phone: String, email: String, location: String)
    ensures Contains(ContactBlock(phone, email, location), Span("📱 ", phone))
    ensures Contains(ContactBlock(phone, email, location), Span("✉️ ", email))
    ensures Contains(ContactBlock(phone, email, location), Span("📍 ", location))
  {
    var open := Indent(12) + "<div class=\"contact\">\n";
    var p := ContactLine("📱 ", phone);
    var e := ContactLine("✉️ ", email);
    var l := ContactLine("📍 ", location);
    var close := Indent(12) + "</div>\n";
    ContainsMiddle(Indent(16), Span("📱 ", phone), "\n");
    ContainsRight(open, p, Span("📱 ", phone));
    ContainsLeft(open + p, e, Span("📱 ", phone));
    ContainsLeft(open + p + e, l, Span("📱 ", phone));
    ContainsLeft(open + p + e + l, close, Span("📱 ", phone));
    ContainsMiddle(Indent(16), Span("✉️ ", email), "\n");
    ContainsRight(open + p, e, Span("✉️ ", email));
    ContainsLeft(open + p + e, l, Span("✉️ ", email));
    ContainsLeft(open + p + e + l, close, Span("✉️ ", email));
    ContainsMiddle(Indent(16), Span("📍 ", location), "\n");
    ContainsRight(open + p + e, l, Span("📍 ", location));
    ContainsLeft(open + p + e + l, close, Span("📍 ", location));
  }

  /** A part of the second piece is a part of the whole. */
  lemma ContainsSecond(a: String, b: String, c: String, d: String, sub: String)
    requires Contains(b, sub)
    ensures Contains(a + b + c + d, sub)
  {
    ContainsRight(a, b, sub);
    ContainsLeft(a + b, c, sub);
    ContainsLeft(a + b + c, d, sub);
  }

  /** The page holds the contact fields verbatim, whatever the title block and
    * the sections: the phone, e-mail and location reach it without escaping,
    * unlike the fields that go through `Escape`, so markup in them reaches
    * the page. */
  lemma ContactsVerbatim(top: String, phone: String, email: String, location: String, body: String)
    ensures Contains(Layout(Header(top, phone, email, location), body), Span("📱 ", phone))
    ensures Contains(Layout(Header(top, phone, email, location), body), Span("✉️ ", email))
    ensures Contains(Layout(Header(top, phone, email, location), body), Span("📍 ", location))
  {
    var cb := ContactBlock(phone, email, location);
    ContactBlockShowsFields(phone, email, location);
    forall sub | sub in [Span("📱 ", phone), Span("✉️ ", email), Span("📍 ", location)]
      ensures Contains(Layout(Header(top, phone, email, location), body), sub)
    {
      ContainsRight(top, cb, sub);
      ContainsLeft(top + cb, Bottom, sub);
      ContainsSecond(Doctype, Header(top, phone, email, location), body, Tail, sub);
    }
  }
}
