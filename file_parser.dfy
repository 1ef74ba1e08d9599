/** Upload whitelist, extractor dispatch, contact extraction, the keyword skill
  * sweep and the ranking of job categories (utils/file_parser.py). */
module FileParser {
  import opened Wrappers
  import opened Text
  import opened Resume

  // ---------------------------------------------------------------------------
  // Extensions

  /** The extensions an upload may have. */
  const AllowedExtensions: set<String> := {"txt", "pdf", "docx", "doc", "jpg", "jpeg", "png"}

  /** `filename.rsplit('.', 1)[1]`: what follows the last '.'. */
  function Suffix(filename: String): String
    requires '.' in filename
  {
    filename[LastIndexOfChar(filename, '.') + 1..]
  }

  /** `allowed_file` */
  function AllowedFile(filename: String): (ok: bool)
    ensures ok ==> '.' in filename
    ensures ok <==> '.' in filename && Lower(Suffix(filename)) in AllowedExtensions
  {
    '.' in filename && Lower(Suffix(filename)) in AllowedExtensions
  }

  /** `get_file_extension`: '' without a '.', otherwise the lowered text after
    * the last '.', which itself holds no '.'. */
  function GetFileExtension(filename: String): (ext: String)
    ensures '.' !in filename ==> ext == ""
    ensures '.' !in ext
    ensures '.' in filename ==> ext == Lower(Suffix(filename))
  {
    if '.' !in filename then ""
    else
      var i := LastIndexOfChar(filename, '.');
      var ext := Lower(Suffix(filename));
      assert forall k :: 0 <= k < |ext| ==> ext[k] == LowerChar(filename[i + 1 + k]);
      ext
  }

  /** A file is accepted exactly when its extension is one of the whitelist. */
  lemma AllowedIffExtensionWhitelisted(filename: String)
    ensures AllowedFile(filename) <==> GetFileExtension(filename) in AllowedExtensions
  {
    if '.' !in filename {
      assert "" !in AllowedExtensions;
    }
  }

  // ---------------------------------------------------------------------------
  // Dispatch to the format-specific extractors

  /** The format-specific extractors; their text extraction (pdfplumber,
    * python-docx, plain file read, tesseract OCR) is not part of this model. */
  datatype Extractor = PdfExtractor | WordExtractor | TextExtractor | OcrExtractor

  /** The extractor `parse_resume` picks for an extension. */
  function ExtractorFor(ext: String): (x: Extractor)
    ensures x == PdfExtractor <==> ext == "pdf"
    ensures x == WordExtractor <==> ext == "docx" || ext == "doc"
    ensures x == OcrExtractor <==> ext in {"jpg", "jpeg", "png"}
    ensures x == TextExtractor <==> ext == "txt" || ext !in AllowedExtensions
  {
    if ext == "pdf" then PdfExtractor
    else if ext == "docx" || ext == "doc" then WordExtractor
    else if ext == "txt" then TextExtractor
    else if ext == "jpg" || ext == "jpeg" || ext == "png" then OcrExtractor
    else TextExtractor
  }

  /** `parse_resume`: `extract(x)` is what extractor `x` yields for the stored
    * file, `None` when it raises; a raised failure yields "". */
  function ParseResume(filename: String, extract: Extractor -> Option<String>): (text: String)
    ensures extract(ExtractorFor(GetFileExtension(filename))).None? ==> text == ""
    ensures extract(ExtractorFor(GetFileExtension(filename))).Some? ==>
              text == extract(ExtractorFor(GetFileExtension(filename))).value
  {
    match extract(ExtractorFor(GetFileExtension(filename)))
    case None => ""
    case Some(t) => t
  }

  /** A file without a whitelisted extension (including one without a '.') is
    * read as plain text. */
  lemma UnlistedExtensionReadsAsText(filename: String, extract: Extractor -> Option<String>)
    requires !AllowedFile(filename)
    ensures ParseResume(filename, extract) == extract(TextExtractor).GetOr("")
  {
    AllowedIffExtensionWhitelisted(filename);
  }

  // ---------------------------------------------------------------------------
  // Contact information

  /** `1[3-9]\d{9}` matches at index `i` (only ASCII digits are modelled for `\d`). */
  predicate PhoneAt(s: String, i: int) {
    0 <= i && i + 11 <= |s| && s[i] == '1' && '3' <= s[i + 1] <= '9'
    && forall k :: i + 2 <= k < i + 11 ==> IsDigit(s[k])
  }

  /** The leftmost index at or after `from` where a phone number matches, or `|s|`. */
  function PhoneIndex(s: String, from: nat): (r: nat)
    requires from <= |s|
    ensures from <= r <= |s|
    ensures r < |s| ==> PhoneAt(s, r)
    ensures forall k :: from <= k < r ==> !PhoneAt(s, k)
    decreases |s| - from
  {
    if from == |s| then |s|
    else if PhoneAt(s, from) then from
    else PhoneIndex(s, from + 1)
  }

  /** Characters of the email pattern's classes. */
  predicate IsLocalChar(c: char) { IsAsciiLetter(c) || IsDigit(c) || c in "._%+-" }
  predicate IsDomainChar(c: char) { IsAsciiLetter(c) || IsDigit(c) || c in ".-" }

  datatype CharClass = LocalClass | DomainClass | LetterClass

  predicate InClass(c: char, cls: CharClass) {
    match cls
    case LocalClass => IsLocalChar(c)
    case DomainClass => IsDomainChar(c)
    case LetterClass => IsAsciiLetter(c)
  }

  /** End of the longest run of characters of class `cls` starting at `i`:
    * where a greedy `[...]+` or `[...]*` stops. */
  function RunEnd(s: String, i: nat, cls: CharClass): (e: nat)
    requires i <= |s|
    ensures i <= e <= |s|
    ensures forall k :: i <= k < e ==> InClass(s[k], cls)
    ensures e < |s| ==> !InClass(s[e], cls)
    decreases |s| - i
  {
    if i < |s| && InClass(s[i], cls) then RunEnd(s, i + 1, cls) else i
  }

  /** A top-level domain can follow a dot at `k`: `\.[a-zA-Z]{2,}` matches there. */
  predicate TldAt(s: String, k: int) {
    0 <= k && k + 2 < |s| && s[k] == '.' && IsAsciiLetter(s[k + 1]) && IsAsciiLetter(s[k + 2])
  }

  /** `s[i..end]` has the shape `[a-zA-Z0-9._%+-]+@[a-zA-Z0-9.-]+\.[a-zA-Z]{2,}`
    * with the '@' at `j` and the dot before the top-level domain at `k`. */
  predicate EmailSplit(s: String, i: int, j: int, k: int, end: int) {
    && 0 <= i < j && j + 1 < k && k + 2 < end <= |s|
    && s[j] == '@' && s[k] == '.'
    && (forall t :: i <= t < j ==> IsLocalChar(s[t]))
    && (forall t :: j < t < k ==> IsDomainChar(s[t]))
    && (forall t :: k < t < end ==> IsAsciiLetter(s[t]))
  }

  /** The email pattern matches at `i` in some way. */
  ghost predicate HasEmailAt(s: String, i: int) {
    exists j, k, end :: EmailSplit(s, i, j, k, end)
  }

  /** The match Python's backtracking reports at `i` is `s[i..end]`: the
    * greedy domain part takes the last dot that a top-level domain can follow,
    * and the top-level domain runs as far as the letters do. */
  ghost predicate EmailMatch(s: String, i: int, end: int) {
    exists j, k ::
      && EmailSplit(s, i, j, k, end)
      && (forall k', end' :: k < k' ==> !EmailSplit(s, i, j, k', end'))
      && (end == |s| || !IsAsciiLetter(s[end]))
  }

  /** Backtracking of `[a-zA-Z0-9.-]+\.[a-zA-Z]{2,}` that starts at `a`, trying the
    * domain part's end `k` from the longest down to `a + 1`: the position of the
    * dot of the first successful match, if any. */
  function DomainFrom(s: String, a: nat, k: nat): (r: Option<nat>)
    requires a < k <= |s|
    ensures r.Some? ==> a < r.value <= k && TldAt(s, r.value)
    ensures r.Some? ==> forall k' :: r.value < k' <= k ==> !TldAt(s, k')
    ensures r.None? ==> forall k' :: a < k' <= k ==> !TldAt(s, k')
    decreases k
  {
    if TldAt(s, k) then Some(k)
    else if k == a + 1 then None
    else DomainFrom(s, a, k - 1)
  }

  /** A greedy run of class `cls` that is followed by a character outside the
    * class ends exactly there. */
  lemma RunEndAt(s: String, i: nat, j: nat, cls: CharClass)
    requires i <= j <= |s|
    requires forall t :: i <= t < j ==> InClass(s[t], cls)
    requires j == |s| || !InClass(s[j], cls)
    ensures RunEnd(s, i, cls) == j
  {
  }

  /** A dot whose domain part is all domain characters lies inside the greedy
    * domain run. */
  lemma DotInsideDomainRun(s: String, j: nat, k: nat)
    requires j < k < |s| && s[k] == '.' && forall t :: j < t < k ==> IsDomainChar(s[t])
    ensures k < RunEnd(s, j + 1, DomainClass)
  {
  }

  /** Any way the pattern matches at `i` puts the '@' where the greedy local
    * part stops and the dot inside the greedy domain run. */
  lemma SplitFollowsRuns(s: String, i: int, j: int, k: int, end: int)
    ensures EmailSplit(s, i, j, k, end) ==>
      && j == RunEnd(s, i, LocalClass) && k < RunEnd(s, j + 1, DomainClass) && TldAt(s, k)
  {
    if EmailSplit(s, i, j, k, end) {
      RunEndAt(s, i, j, LocalClass);
      DotInsideDomainRun(s, j, k);
    }
  }

  /** The end of the email match whose local part starts at `i`, if there is
    * one: exactly the match Python reports there. */
  function EmailEndAt(s: String, i: nat): (r: Option<nat>)
    requires i <= |s|
    ensures r.Some? ==> i < r.value <= |s| && '@' in s[i..r.value] && EmailMatch(s, i, r.value)
    ensures r.None? <==> !HasEmailAt(s, i)
  {
    var j := RunEnd(s, i, LocalClass);
    var e := if j < |s| then RunEnd(s, j + 1, DomainClass) else j;
    if j == i || j == |s| || s[j] != '@' || e <= j + 1 then
      NoEmailAt(s, i, j, e);
      None
    else
      match DomainFrom(s, j + 1, e)
      case None =>
        NoEmailAt(s, i, j, e);
        None
      case Some(k) =>
        var end := RunEnd(s, k + 1, LetterClass);
        assert s[i..end][j - i] == '@';
        EmailMatchHere(s, i, j, e, k, end);
        Some(end)
  }

  /** No match at `i` when the greedy runs leave no '@', no domain or no dot
    * that a top-level domain can follow. */
  lemma NoEmailAt(s: String, i: nat, j: nat, e: nat)
    requires i <= |s| && j == RunEnd(s, i, LocalClass)
    requires j < |s| ==> e == RunEnd(s, j + 1, DomainClass)
    requires j == i || j == |s| || s[j] != '@' || e <= j + 1 || forall k' :: j + 1 < k' <= e ==> !TldAt(s, k')
    ensures !HasEmailAt(s, i)
  {
    forall j', k, end
      ensures !EmailSplit(s, i, j', k, end)
    {
      SplitFollowsRuns(s, i, j', k, end);
    }
  }

  lemma EmailMatchHere(s: String, i: nat, j: nat, e: nat, k: nat, end: nat)
    requires i < j < |s| && j == RunEnd(s, i, LocalClass) && s[j] == '@'
    requires e == RunEnd(s, j + 1, DomainClass) && j + 1 < k <= e
    requires TldAt(s, k) && forall k' :: k < k' <= e ==> !TldAt(s, k')
    requires end == RunEnd(s, k + 1, LetterClass)
    ensures EmailMatch(s, i, end)
  {
    assert InClass(s[k + 1], LetterClass) && InClass(s[k + 2], LetterClass);
    assert EmailSplit(s, i, j, k, end);
    forall k', end' | k < k'
      ensures !EmailSplit(s, i, j, k', end')
    {
      SplitFollowsRuns(s, i, j, k', end');
    }
  }

  /** Skipping a position where nothing matches keeps the leftmost match. */
  lemma EmailSkip(s: String, from: nat, r: String)
    requires from < |s| && !HasEmailAt(s, from)
    requires r != "" ==> exists i, end :: from + 1 <= i < end <= |s| && r == s[i..end] && EmailMatch(s, i, end)
                                          && forall i' :: from + 1 <= i' < i ==> !HasEmailAt(s, i')
    ensures r != "" ==> exists i, end :: from <= i < end <= |s| && r == s[i..end] && EmailMatch(s, i, end)
                                         && forall i' :: from <= i' < i ==> !HasEmailAt(s, i')
  {
    if r != "" {
      var i, end :| from + 1 <= i < end <= |s| && r == s[i..end] && EmailMatch(s, i, end)
                    && forall i' :: from + 1 <= i' < i ==> !HasEmailAt(s, i');
      assert forall i' :: from <= i' < i ==> !HasEmailAt(s, i');
    }
  }

  /** The leftmost email match at or after `from`, or "". */
  function EmailFrom(s: String, from: nat): (r: String)
    requires from <= |s|
    ensures r == "" <==> forall i :: from <= i < |s| ==> !HasEmailAt(s, i)
    ensures r != "" ==> '@' in r && exists i | from <= i <= |s| - |r| :: ContainsAt(s, r, i)
    ensures r != "" ==> exists i, end :: from <= i < end <= |s| && r == s[i..end] && EmailMatch(s, i, end)
                                         && forall i' :: from <= i' < i ==> !HasEmailAt(s, i')
    decreases |s| - from
  {
    if from == |s| then ""
    else
      match EmailEndAt(s, from)
      case Some(end) =>
        assert ContainsAt(s, s[from..end], from);
        s[from..end]
      case None =>
        var r := EmailFrom(s, from + 1);
        EmailSkip(s, from, r);
        r
  }

  /** The phone number `extract_contact_info` reports: the leftmost match, or ''. */
  function FirstPhone(text: String): (p: String)
    ensures p == "" <==> forall k :: 0 <= k < |text| ==> !PhoneAt(text, k)
    ensures p != "" ==> |p| == 11 && PhoneAt(text, PhoneIndex(text, 0))
                        && p == text[PhoneIndex(text, 0)..PhoneIndex(text, 0) + 11]
  {
    var i := PhoneIndex(text, 0);
    if i < |text| then text[i..i + 11] else ""
  }

  /** The email `extract_contact_info` reports: the leftmost match, or ''. */
  function FirstEmail(text: String): (e: String)
    ensures e == "" <==> forall i :: 0 <= i < |text| ==> !HasEmailAt(text, i)
    ensures e != "" ==> '@' in e && Contains(text, e)
    ensures e != "" ==> exists i, end :: 0 <= i < end <= |text| && e == text[i..end] && EmailMatch(text, i, end)
                                         && forall i' :: 0 <= i' < i ==> !HasEmailAt(text, i')
  {
    EmailFrom(text, 0)
  }

  /** The name `extract_contact_info` reports: the first line of the stripped
    * text, itself stripped. */
  function FirstLineName(text: String): (name: String)
    ensures '\n' !in name
    ensures Strip(name) == name
    ensures var t := Strip(text);
      exists i :: 0 <= i <= |t| && '\n' !in t[..i] && (i == |t| || t[i] == '\n') && name == Strip(t[..i])
  {
    var lines := Split(Strip(text), '\n');
    assert '\n' !in lines[0];
    assert lines[0] == Strip(text)[..IndexOfChar(Strip(text), '\n')];
    StrippedLine(lines[0]);
    Strip(lines[0])
  }


  lemma StrippedLine(line: String)
    requires '\n' !in line
    ensures '\n' !in Strip(line) && Strip(Strip(line)) == Strip(line)
  {
    StripIdempotent(line);
    StripNoChar(line, '\n');
  }

  datatype ContactInfo = ContactInfo(phone: String, email: String, name: String)

  /** `extract_contact_info` */
  function ExtractContactInfo(text: String): (c: ContactInfo)
    ensures c.name == "" <==> Strip(text) == ""
    ensures '@' !in text ==> c.email == ""
    ensures c.phone == "" <==> forall k :: 0 <= k < |text| ==> !PhoneAt(text, k)
    ensures c.phone == FirstPhone(text) && c.email == FirstEmail(text) && c.name == FirstLineName(text)
  {
    NameEmptyIffBlankText(text);
    ContactInfo(FirstPhone(text), FirstEmail(text), FirstLineName(text))
  }

  /** The email is '' whenever the text has no '@'. */
  lemma NoAtSignNoEmail(text: String)
    requires '@' !in text
    ensures FirstEmail(text) == ""
  {
  }

  /** A non-empty string that starts with a non-space character strips to a
    * non-empty string. */
  lemma StripKeepsNonSpaceHead(s: String)
    requires s != [] && !IsSpace(s[0])
    ensures Strip(s) != []
  {
  }

  /** The name is empty exactly when the whole text is whitespace. */
  lemma NameEmptyIffBlankText(text: String)
    ensures FirstLineName(text) == "" <==> Strip(text) == ""
  {
    var t := Strip(text);
    var first := Split(t, '\n')[0];
    if t != "" {
      assert t[0] != '\n';
      var i := IndexOfChar(t, '\n');
      assert i > 0;
      assert first[0] == t[0];
      StripKeepsNonSpaceHead(first);
    } else {
      assert first == "";
    }
  }

  // ---------------------------------------------------------------------------
  // Work-experience sections

  datatype Sections = Sections(work: seq<WorkEntry>, projects: seq<ProjectEntry>,
                               education: seq<EducationEntry>, skills: seq<String>)

  /** `extract_work_experience`: the section patterns are declared but never
    * applied, so every list is empty whatever the text. */
  function ExtractWorkExperience(text: String): (r: Sections)
    ensures r.work == [] && r.projects == [] && r.education == [] && r.skills == []
  {
    Sections([], [], [], [])
  }

  // ---------------------------------------------------------------------------
  // Skill sweep

  /** The keyword vocabulary of `extract_skills`, in its order, group by group. */
  const LanguageKeywords: seq<String> :=
    ["Python", "Java", "JavaScript", "C++", "C#", "Go", "Rust", "Ruby", "PHP", "Swift", "Kotlin"]
  const FrontendKeywords: seq<String> :=
    ["React", "Vue", "Angular", "HTML", "CSS", "TypeScript", "Node.js", "jQuery", "Bootstrap"]
  const BackendKeywords: seq<String> :=
    ["Django", "Flask", "Spring", "Spring Boot", "MyBatis", "Hibernate", "Express", "FastAPI"]
  const DatabaseKeywords: seq<String> :=
    ["MySQL", "PostgreSQL", "MongoDB", "Redis", "Oracle", "SQL Server", "Elasticsearch"]
  const CloudKeywords: seq<String> :=
    ["AWS", "Azure", "GCP", "Docker", "Kubernetes", "Jenkins", "Git", "Linux", "Nginx"]
  const DataKeywords: seq<String> :=
    ["Pandas", "NumPy", "Spark", "Hadoop", "Tableau", "Excel", "SQL"]
  const AiKeywords: seq<String> :=
    ["TensorFlow", "PyTorch", "Keras", "Scikit-learn", "NLP", "Computer Vision"]
  const OtherKeywords: seq<String> :=
    ["RESTful API", "GraphQL", "Microservices", "Agile", "Scrum"]
  const TechKeywords: seq<String> :=
    LanguageKeywords + FrontendKeywords + BackendKeywords + DatabaseKeywords
    + CloudKeywords + DataKeywords + AiKeywords + OtherKeywords

  /** The keyword occurs in the text, ignoring ASCII case. */
  predicate Mentions(text: String, keyword: String) {
    Contains(Lower(text), Lower(keyword))
  }

  /** The skills `extract_skills` reports, as a set. */
  function SkillSet(text: String): (r: set<String>)
    ensures forall k :: k in r <==> k in TechKeywords && Mentions(text, k)
  {
    set k | k in TechKeywords && Mentions(text, k)
  }

  predicate NoDuplicates<T(==)>(xs: seq<T>) {
    forall i, j :: 0 <= i < j < |xs| ==> xs[i] != xs[j]
  }

  /** `list(set(xs))`: each element once. Python's order is the set's hash
    * order; this keeps first occurrences, which is one of the orders it may take. */
  function Distinct<T(==,!new)>(xs: seq<T>): (r: seq<T>)
    ensures NoDuplicates(r)
    ensures forall x :: x in r <==> x in xs
  {
    if xs == [] then []
    else
      var rest := Distinct(xs[..|xs| - 1]);
      var last := xs[|xs| - 1];
      assert xs == xs[..|xs| - 1] + [last];
      if last in rest then rest else rest + [last]
  }

  /** `extract_skills`: every vocabulary keyword mentioned in the text, once. */
  method ExtractSkills(text: String) returns (skills: seq<String>)
    ensures NoDuplicates(skills)
    ensures forall k :: k in skills <==> k in SkillSet(text)
  {
    var found: seq<String> := [];
    var lowered := Lower(text);
    for i := 0 to |TechKeywords|
      invariant forall k :: k in found <==> k in TechKeywords[..i] && Mentions(text, k)
    {
      var keyword := TechKeywords[i];
      if Contains(lowered, Lower(keyword)) {
        found := found + [keyword];
      }
      assert TechKeywords[..i + 1] == TechKeywords[..i] + [keyword];
    }
    assert TechKeywords[..|TechKeywords|] == TechKeywords;
    skills := Distinct(found);
  }

  /** Keyword matching is substring matching, so a keyword found in the text
    * brings along every vocabulary keyword that it contains. */
  lemma {:induction false} LongerKeywordImpliesShorter(text: String, long: String, short: String)
    requires long in SkillSet(text) && short in TechKeywords
    requires Contains(Lower(long), Lower(short))
    ensures short in SkillSet(text)
  {
    ContainsTransitive(Lower(text), Lower(long), Lower(short));
  }

  lemma MySqlImpliesSql(text: String)
    ensures "MySQL" in SkillSet(text) ==> "SQL" in SkillSet(text)
  {
    if "MySQL" in SkillSet(text) {
      assert "SQL" in DataKeywords;
      assert ContainsAt("MySQL", "SQL", 2);
      LowerKeepsContains("MySQL", "SQL");
      LongerKeywordImpliesShorter(text, "MySQL", "SQL");
    }
  }

  lemma JavaScriptImpliesJava(text: String)
    ensures "JavaScript" in SkillSet(text) ==> "Java" in SkillSet(text)
  {
    if "JavaScript" in SkillSet(text) {
      assert LanguageKeywords[1] == "Java";
      assert ContainsAt("JavaScript", "Java", 0);
      LowerKeepsContains("JavaScript", "Java");
      LongerKeywordImpliesShorter(text, "JavaScript", "Java");
    }
  }

  lemma SpringBootImpliesSpring(text: String)
    ensures "Spring Boot" in SkillSet(text) ==> "Spring" in SkillSet(text)
  {
    if "Spring Boot" in SkillSet(text) {
      assert BackendKeywords[2] == "Spring";
      assert ContainsAt("Spring Boot", "Spring", 0);
      LowerKeepsContains("Spring Boot", "Spring");
      LongerKeywordImpliesShorter(text, "Spring Boot", "Spring");
    }
  }

  // ---------------------------------------------------------------------------
  // Job-category suggestions

  /** The categories of `suggest_job_positions` with their skill lists, in the
    * dict's insertion order. */
  const JobCategories: seq<(String, seq<String>)> := [
    ("后端开发", ["Python", "Java", "Go", "Spring", "Django", "Flask", "MySQL", "Redis"]),
    ("前端开发", ["React", "Vue", "HTML", "CSS", "JavaScript", "TypeScript", "Node.js"]),
    ("全栈开发", ["Python", "JavaScript", "React", "Node.js", "MySQL"]),
    ("数据分析", ["Python", "Pandas", "SQL", "Excel", "Tableau", "Spark"]),
    ("机器学习", ["Python", "TensorFlow", "PyTorch", "Scikit-learn", "NLP"]),
    ("DevOps", ["Docker", "Kubernetes", "Jenkins", "AWS", "Linux", "Git"]),
    ("移动开发", ["Swift", "Kotlin", "React Native", "Android", "iOS"]),
    ("产品经理", ["Axure", "Figma", "需求分析", "产品设计", "用户研究"])]

  datatype Suggestion = Suggestion(position: String, matchScore: real, matchedSkills: seq<String>)

  /** `[s for s in skills if s in required]`: exact, case-sensitive matches, in
    * input order and with repeats. */
  function MatchedSkills(skills: seq<String>, required: seq<String>): (m: seq<String>)
    ensures |m| <= |skills|
    ensures forall s :: s in m <==> s in skills && s in required
  {
    if skills == [] then []
    else
      var init := skills[..|skills| - 1];
      var last := skills[|skills| - 1];
      assert skills == init + [last];
      MatchedSkills(init, required) + (if last in required then [last] else [])
  }

  /** A category qualifies when at least two input skills are on its list. */
  predicate Qualifies(skills: seq<String>, category: (String, seq<String>)) {
    |MatchedSkills(skills, category.1)| >= 2
  }

  function SuggestionFor(skills: seq<String>, category: (String, seq<String>)): Suggestion
    requires |category.1| > 0
  {
    var m := MatchedSkills(skills, category.1);
    Suggestion(category.0, |m| as real / |category.1| as real, m)
  }

  predicate NonEmptyLists(categories: seq<(String, seq<String>)>) {
    forall c :: c in categories ==> |c.1| > 0
  }

  /** The suggestions for the qualifying categories, in table order (before sorting). */
  function Candidates(skills: seq<String>, categories: seq<(String, seq<String>)>): (r: seq<Suggestion>)
    requires NonEmptyLists(categories)
    ensures |r| <= |categories|
    ensures forall c :: c in categories && Qualifies(skills, c) ==> SuggestionFor(skills, c) in r
    ensures forall x :: x in r ==> exists c :: c in categories && Qualifies(skills, c) && x == SuggestionFor(skills, c)
  {
    if categories == [] then []
    else
      var init := categories[..|categories| - 1];
      var last := categories[|categories| - 1];
      assert categories == init + [last];
      Candidates(skills, init) + (if Qualifies(skills, last) then [SuggestionFor(skills, last)] else [])
  }

  predicate SortedByScore(xs: seq<Suggestion>) {
    forall i, j :: 0 <= i < j < |xs| ==> xs[i].matchScore >= xs[j].matchScore
  }

  /** Inserts `x` after every element whose score is at least its own, as a
    * stable sort does with a later element. */
  function Insert(ys: seq<Suggestion>, x: Suggestion): (r: seq<Suggestion>)
    ensures multiset(r) == multiset(ys) + multiset{x}
  {
    if ys == [] then [x]
    else if ys[0].matchScore >= x.matchScore then
      assert ys == [ys[0]] + ys[1..];
      [ys[0]] + Insert(ys[1..], x)
    else [x] + ys
  }

  /** `xs.sort(key=score, reverse=True)`: Python's stable sort, descending. */
  function SortByScore(xs: seq<Suggestion>): (r: seq<Suggestion>)
    ensures multiset(r) == multiset(xs)
  {
    if xs == [] then []
    else
      assert xs == xs[..|xs| - 1] + [xs[|xs| - 1]];
      Insert(SortByScore(xs[..|xs| - 1]), xs[|xs| - 1])
  }

  /** The elements of `xs` whose score is `v`, in order. */
  function WithScore(xs: seq<Suggestion>, v: real): seq<Suggestion> {
    if xs == [] then [] else (if xs[0].matchScore == v then [xs[0]] else []) + WithScore(xs[1..], v)
  }

  lemma {:induction false} WithScoreAppend(a: seq<Suggestion>, b: seq<Suggestion>, v: real)
    ensures WithScore(a + b, v) == WithScore(a, v) + WithScore(b, v)
  {
    if a != [] {
      assert (a + b)[0] == a[0];
      assert (a + b)[1..] == a[1..] + b;
      WithScoreAppend(a[1..], b, v);
      var h := if a[0].matchScore == v then [a[0]] else [];
      calc {
        WithScore(a + b, v);
        h + WithScore(a[1..] + b, v);
        h + (WithScore(a[1..], v) + WithScore(b, v));
        (h + WithScore(a[1..], v)) + WithScore(b, v);
      }
    } else {
      assert a + b == b;
    }
  }

  lemma {:induction false} InsertSorted(ys: seq<Suggestion>, x: Suggestion)
    requires SortedByScore(ys)
    ensures SortedByScore(Insert(ys, x))
  {
    if ys != [] && ys[0].matchScore >= x.matchScore {
      InsertSorted(ys[1..], x);
      var r := Insert(ys, x);
      assert forall k :: 0 <= k < |r| ==> r[k] in multiset(ys) + multiset{x};
    }
  }

  lemma {:induction false} WithScoreBelowHead(ys: seq<Suggestion>, v: real)
    requires SortedByScore(ys)
    requires ys != [] ==> ys[0].matchScore < v
    ensures WithScore(ys, v) == []
  {
    if ys != [] {
      WithScoreBelowHead(ys[1..], v);
    }
  }

  lemma {:induction false} InsertStable(ys: seq<Suggestion>, x: Suggestion, v: real)
    requires SortedByScore(ys)
    ensures WithScore(Insert(ys, x), v) == WithScore(ys, v) + WithScore([x], v)
  {
    if ys == [] {
    } else if ys[0].matchScore >= x.matchScore {
      var h, rest := [ys[0]], ys[1..];
      assert SortedByScore(rest);
      calc {
        WithScore(Insert(ys, x), v);
        WithScore(h + Insert(rest, x), v);
        { WithScoreAppend(h, Insert(rest, x), v); }
        WithScore(h, v) + WithScore(Insert(rest, x), v);
        { InsertStable(rest, x, v); }
        WithScore(h, v) + (WithScore(rest, v) + WithScore([x], v));
        (WithScore(h, v) + WithScore(rest, v)) + WithScore([x], v);
        { WithScoreAppend(h, rest, v); assert h + rest == ys; }
        WithScore(ys, v) + WithScore([x], v);
      }
    } else {
      WithScoreAppend([x], ys, v);
      if x.matchScore == v {
        WithScoreBelowHead(ys, v);
      }
    }
  }

  /** The sort is descending. */
  lemma {:induction false} SortByScoreSorted(xs: seq<Suggestion>)
    ensures SortedByScore(SortByScore(xs))
  {
    if xs != [] {
      SortByScoreSorted(xs[..|xs| - 1]);
      InsertSorted(SortByScore(xs[..|xs| - 1]), xs[|xs| - 1]);
    }
  }

  /** The sort is stable: for every score, the elements with that score keep
    * their original relative order. */
  lemma {:induction false} SortByScoreStable(xs: seq<Suggestion>, v: real)
    ensures WithScore(SortByScore(xs), v) == WithScore(xs, v)
  {
    if xs != [] {
      var init := xs[..|xs| - 1];
      var last := xs[|xs| - 1];
      SortByScoreStable(init, v);
      SortByScoreSorted(init);
      InsertStable(SortByScore(init), last, v);
      assert xs == init + [last];
      WithScoreAppend(init, [last], v);
    }
  }

  /** The loop of `suggest_job_positions` that collects the qualifying categories. */
  method CollectCandidates(skills: seq<String>) returns (found: seq<Suggestion>)
    requires NonEmptyLists(JobCategories)
    ensures found == Candidates(skills, JobCategories)
  {
    found := [];
    for i := 0 to |JobCategories|
      invariant found == Candidates(skills, JobCategories[..i])
    {
      var category := JobCategories[i];
      assert JobCategories[..i + 1][..i] == JobCategories[..i];
      if |MatchedSkills(skills, category.1)| >= 2 {
        found := found + [SuggestionFor(skills, category)];
      }
    }
    assert JobCategories[..|JobCategories|] == JobCategories;
  }

  /** `positions.sort(key=lambda x: x['match_score'], reverse=True)` on a local list. */
  method SortSuggestions(xs: seq<Suggestion>) returns (sorted: seq<Suggestion>)
    ensures sorted == SortByScore(xs)
    ensures SortedByScore(sorted) && multiset(sorted) == multiset(xs)
  {
    sorted := [];
    for i := 0 to |xs|
      invariant sorted == SortByScore(xs[..i])
    {
      assert xs[..i + 1][..i] == xs[..i];
      sorted := Insert(sorted, xs[i]);
    }
    assert xs[..|xs|] == xs;
    SortByScoreSorted(xs);
  }

  lemma CategoryListsNonEmpty()
    ensures NonEmptyLists(JobCategories)
  {
  }

  /** `suggest_job_positions`: the qualifying categories, ranked by score with
    * ties in table order, at most five. The work-experience argument is unused. */
  method SuggestJobPositions(skills: seq<String>, workExperience: seq<WorkEntry>)
    returns (positions: seq<Suggestion>)
    ensures positions == Take(SortByScore(Candidates(skills, JobCategories)), 5)
    ensures |positions| <= 5 && SortedByScore(positions)
  {
    CategoryListsNonEmpty();
    var found := CollectCandidates(skills);
    var sorted := SortSuggestions(found);
    positions := Take(sorted, 5);
  }

  /** Every suggestion comes from a qualifying category, with its score and matches. */
  lemma {:induction false} SuggestionsQualify(skills: seq<String>, categories: seq<(String, seq<String>)>, p: Suggestion)
    requires NonEmptyLists(categories)
    requires p in Take(SortByScore(Candidates(skills, categories)), 5)
    ensures exists c :: c in categories && Qualifies(skills, c) && p == SuggestionFor(skills, c)
  {
    var cs := Candidates(skills, categories);
    var sorted := SortByScore(cs);
    assert p in sorted;
    assert p in multiset(sorted);
    assert p in cs;
  }

  /** When at most five categories qualify, every one of them is suggested. */
  lemma {:induction false} FewQualifyingAllSuggested(skills: seq<String>, c: (String, seq<String>))
    requires NonEmptyLists(JobCategories)
    requires |Candidates(skills, JobCategories)| <= 5
    requires c in JobCategories && Qualifies(skills, c)
    ensures SuggestionFor(skills, c) in Take(SortByScore(Candidates(skills, JobCategories)), 5)
  {
    var cs := Candidates(skills, JobCategories);
    assert SuggestionFor(skills, c) in multiset(SortByScore(cs));
  }
}
