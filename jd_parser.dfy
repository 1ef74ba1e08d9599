/** `MockJobClient.parse_jd`: the rule-based reading of a pasted job
  * description. Each regular expression is modelled by the match Python's
  * `re.search` finds with it: the leftmost start, alternatives tried in the
  * order written, greedy repetition that gives back characters only when the
  * rest of the pattern needs them, and lazy repetition that stops at the first
  * place the rest matches. */
module JdParser {
  import opened Wrappers
  import opened Text
  import opened JobClient

  // ---------------------------------------------------------------------
  // Occurrences

  /** The first of `words`, in the order given, that occurs at index `i`:
    * how an alternation `(w1|w2|...)` is tried at one position. */
  function WordAt(s: String, words: seq<String>, i: nat): (r: Option<String>)
    ensures r.Some? ==> r.value in words && ContainsAt(s, r.value, i)
    ensures r.None? ==> forall w :: w in words ==> !ContainsAt(s, w, i)
  {
    if words == [] then None
    else if ContainsAt(s, words[0], i) then Some(words[0])
    else WordAt(s, words[1..], i)
  }

  /** `re.search('(w1|w2|...)', s).group(1)`: the alternative that matches at
    * the leftmost position where any does. */
  function FirstWord(s: String, words: seq<String>, from: nat): (r: Option<String>)
    ensures r.Some? ==> r.value in words && Contains(s, r.value)
    ensures r.None? ==> forall w, k :: w in words && from <= k ==> !ContainsAt(s, w, k)
    ensures r.Some? ==> exists k :: from <= k <= |s| && r == WordAt(s, words, k)
                                    && forall j :: from <= j < k ==> WordAt(s, words, j).None?
    decreases |s| + 1 - from
  {
    if from > |s| then None
    else match WordAt(s, words, from)
      case Some(w) => Some(w)
      case None =>
        var r := FirstWord(s, words, from + 1);
        assert r.Some? ==> exists k :: from <= k <= |s| && r == WordAt(s, words, k)
                                       && forall j :: from <= j < k ==> WordAt(s, words, j).None?;
        r
  }

  // ---------------------------------------------------------------------
  // `label[：:\s]*([^\n]+)`

  /** `[：:\s]` */
  predicate FieldSeparator(c: char) {
    c == '：' || c == ':' || IsSpace(c)
  }

  /** The end of the run of `[：:\s]` that starts at `i`. */
  function SkipFieldSeparators(s: String, i: nat): (j: nat)
    requires i <= |s|
    ensures i <= j <= |s|
    ensures forall k :: i <= k < j ==> FieldSeparator(s[k])
    ensures j < |s| ==> !FieldSeparator(s[j])
    decreases |s| - i
  {
    if i < |s| && FieldSeparator(s[i]) then SkipFieldSeparators(s, i + 1) else i
  }

  /** The end of the line that holds index `i`: the next `\n`, or the end. */
  function LineEnd(s: String, i: nat): (j: nat)
    requires i <= |s|
    ensures i <= j <= |s|
    ensures forall k :: i <= k < j ==> s[k] != '\n'
    ensures j < |s| ==> s[j] == '\n'
    decreases |s| - i
  {
    if i < |s| && s[i] != '\n' then LineEnd(s, i + 1) else i
  }

  /** The last index in `[lo, hi)` that does not hold `\n`. */
  function LastNonNewline(s: String, lo: nat, hi: nat): (r: Option<nat>)
    requires hi <= |s|
    ensures r.Some? ==> lo <= r.value < hi && s[r.value] != '\n'
    ensures forall k :: lo <= k < hi && (r.None? || r.value < k) ==> s[k] == '\n'
    decreases hi
  {
    if hi <= lo then None
    else if s[hi - 1] != '\n' then Some(hi - 1)
    else LastNonNewline(s, lo, hi - 1)
  }

  /** A slice that stays inside one line holds no `\n`. */
  lemma OneLineSlice(s: String, a: nat, e: nat)
    requires a <= e <= |s|
    requires forall k :: a <= k < e ==> s[k] != '\n'
    ensures '\n' !in s[a..e]
  {
  }

  /** Group 1 of `label[：:\s]*([^\n]+)` when the label is matched at `i`.
    * The separators are taken greedily; when they run to the end of the text
    * the engine gives them back one by one until `[^\n]+` can match, which
    * leaves the last character of the text that is not `\n`. */
  function LabelledAt(text: String, key: String, i: nat): (r: Option<String>)
    requires ContainsAt(text, key, i)
    ensures r.Some? ==> |r.value| >= 1 && '\n' !in r.value
    ensures var k := SkipFieldSeparators(text, i + |key|);
      k < |text| ==> r == Some(text[k..LineEnd(text, k)])
    ensures r.None? <==> forall j :: i + |key| <= j < |text| ==> text[j] == '\n'
  {
    var k := SkipFieldSeparators(text, i + |key|);
    assert IsSpace('\n');
    if k < |text| then
      OneLineSlice(text, k, LineEnd(text, k));
      Some(text[k..LineEnd(text, k)])
    else match LastNonNewline(text, i + |key|, |text|)
      case None => None
      case Some(j) =>
        OneLineSlice(text, j, LineEnd(text, j));
        Some(text[j..LineEnd(text, j)])
  }

  /** `re.search(label + r'[：:\s]*([^\n]+)', text).group(1)`: the group at the
    * first occurrence of the label where the pattern matches. */
  function LabelledGroup(text: String, key: String, from: nat): (r: Option<String>)
    ensures r.Some? ==> |r.value| >= 1 && '\n' !in r.value
    ensures r.Some? ==> Contains(text, key)
    ensures r.Some? ==> exists i :: from <= i && ContainsAt(text, key, i) && LabelledAt(text, key, i) == r
                                    && forall j :: from <= j < i && ContainsAt(text, key, j) ==> LabelledAt(text, key, j).None?
    ensures r.None? ==> forall j :: from <= j && ContainsAt(text, key, j) ==> LabelledAt(text, key, j).None?
    decreases |text| + 1 - from
  {
    match FindFrom(text, key, from)
    case None => None
    case Some(i) =>
      match LabelledAt(text, key, i)
      case Some(g) => Some(g)
      case None => if i < |text| then LabelledGroup(text, key, i + 1) else None
  }

  // ---------------------------------------------------------------------
  // The field patterns

  /** `(?:w1|...)[^\n]+` (when `more`) or `(?:w1|...)[^\n]*`: word `w`
    * matches somewhere. */
  predicate WordHit(text: String, w: String, more: bool) {
    exists i | 0 <= i <= |text| - |w| ::
      ContainsAt(text, w, i) && (more ==> i + |w| < |text| && text[i + |w|] != '\n')
  }

  /** The three shapes of pattern `parse_jd` tries for a field. */
  datatype Pattern =
    | Labelled(key: String)                  // `label[：:\s]*([^\n]+)`
    | Ungrouped(words: seq<String>, more: bool) // `(?:w1|...)[^\n]+`, no group 1
    | Grouped(words: seq<String>)              // `(w1|...)[^\n]*`

  /** What a successful search makes of `match.group(1)`: a text, or a
    * pattern without a group 1. */
  datatype Hit = Group(value: String) | NoGroup

  /** `re.search(p, text)` followed by `match.group(1)`. */
  function SearchPattern(text: String, p: Pattern): (r: Option<Hit>)
    ensures p.Labelled? ==> (r.Some? ==> r.value.Group? && Contains(text, p.key))
    ensures p.Ungrouped? ==> (r.Some? <==> exists w :: w in p.words && WordHit(text, w, p.more))
    ensures p.Ungrouped? && r.Some? ==> r.value == NoGroup
    ensures p.Grouped? && r.Some? ==> r.value.Group? && r.value.value in p.words
    ensures p.Labelled? ==> (r.Some? <==> LabelledGroup(text, p.key, 0).Some?)
                            && (r.Some? ==> r.value == Group(LabelledGroup(text, p.key, 0).value))
    ensures p.Grouped? ==> (r.Some? <==> FirstWord(text, p.words, 0).Some?)
                           && (r.Some? ==> r.value == Group(FirstWord(text, p.words, 0).value))
  {
    match p
    case Labelled(key) =>
      (match LabelledGroup(text, key, 0) case None => None case Some(g) => Some(Group(g)))
    case Ungrouped(words, more) =>
      if exists w :: w in words && WordHit(text, w, more) then Some(NoGroup) else None
    case Grouped(words) =>
      (match FirstWord(text, words, 0) case None => None case Some(w) => Some(Group(w)))
  }

  /** The hit of the first pattern in `ps` that matches. */
  function FirstHit(text: String, ps: seq<Pattern>): Option<Hit> {
    if ps == [] then None
    else match SearchPattern(text, ps[0])
      case Some(h) => Some(h)
      case None => FirstHit(text, ps[1..])
  }

  /** A `for pattern in ...: ... break` loop of `parse_jd`: the first pattern
    * that matches sets the field to `match.group(1).strip()`, which raises
    * `IndexError` for a pattern without a group 1; when none matches, the
    * field stays `''`. */
  function Field(text: String, ps: seq<Pattern>): Result<String, Failure> {
    match FirstHit(text, ps)
    case None => Ok("")
    case Some(Group(g)) => Ok(Strip(g))
    case Some(NoGroup) => Err(IndexError)
  }

  /** The pattern loop itself. */
  method ExtractField(text: String, ps: seq<Pattern>) returns (r: Result<String, Failure>)
    ensures r == Field(text, ps)
  {
    for i := 0 to |ps|
      invariant FirstHit(text, ps[i..]) == FirstHit(text, ps)
    {
      assert ps[i..][0] == ps[i] && ps[i..][1..] == ps[i + 1..];
      var hit := SearchPattern(text, ps[i]);
      if hit.Some? {
        match hit.value {
          case Group(g) => r := Ok(Strip(g));
          case NoGroup => r := Err(IndexError);
        }
        return;
      }
    }
    assert ps[|ps|..] == [];
    r := Ok("");
  }

  /** A stripped line is a piece of the line: it holds no `\n` either. */
  lemma StripOneLine(g: String)
    requires '\n' !in g
    ensures '\n' !in Strip(g)
  {
    StripNoChar(g, '\n');
  }

  /** A field that is found is one line: no pattern reads across a `\n`. */
  lemma FieldIsOneLine(text: String, ps: seq<Pattern>)
    requires forall k, w :: 0 <= k < |ps| && ps[k].Grouped? && w in ps[k].words ==> '\n' !in w
    requires Field(text, ps).Ok?
    ensures '\n' !in Field(text, ps).value
    decreases |ps|
  {
    if ps != [] && SearchPattern(text, ps[0]).None? {
      FieldIsOneLine(text, ps[1..]);
    } else if ps != [] {
      var g := SearchPattern(text, ps[0]).value.value;
      if ps[0].Labelled? {
        StripOneLine(g);
      } else {
        assert ps[0].Grouped?;
        StripOneLine(g);
      }
    }
  }

  /** Only a pattern without a group raises: a list of labelled and grouped
    * patterns always yields a field. */
  lemma {:induction false} GroupedFieldsNeverRaise(text: String, ps: seq<Pattern>)
    requires forall k :: 0 <= k < |ps| ==> !ps[k].Ungrouped?
    ensures Field(text, ps).Ok?
    decreases |ps|
  {
    if ps != [] && SearchPattern(text, ps[0]).None? {
      GroupedFieldsNeverRaise(text, ps[1..]);
    }
  }

  /** A field raises `IndexError` and nothing else, and only when one of its
    * ungrouped patterns matches. */
  lemma {:induction false} FieldRaises(text: String, ps: seq<Pattern>)
    requires Field(text, ps).Err?
    ensures Field(text, ps).error == IndexError
    ensures exists k :: 0 <= k < |ps| && ps[k].Ungrouped? && SearchPattern(text, ps[k]).Some?
    decreases |ps|
  {
    if SearchPattern(text, ps[0]).None? {
      FieldRaises(text, ps[1..]);
      var k :| 0 <= k < |ps[1..]| && ps[1..][k].Ungrouped? && SearchPattern(text, ps[1..][k]).Some?;
      assert ps[k + 1] == ps[1..][k];
    } else {
      assert ps[0].Ungrouped?;
    }
  }

  const TitleWords: seq<String> := ["Python", "Java", "前端", "后端", "产品", "运营", "算法", "测试"]
  const CompanyNames: seq<String> := ["字节跳动", "阿里巴巴", "腾讯", "美团", "京东", "百度", "华为", "网易"]
  const Cities: seq<String> := ["北京", "上海", "深圳", "杭州", "广州"]

  /** `title_patterns`; the optional `(?:高级|资深|中级)` prefix of the last
    * one does not change whether it matches. */
  const TitlePatterns: seq<Pattern> :=
    [Labelled("职位"), Labelled("岗位"), Labelled("招聘"), Ungrouped(TitleWords, true)]

  /** `company_patterns` */
  const CompanyPatterns: seq<Pattern> := [Labelled("公司"), Ungrouped(CompanyNames, false)]

  /** `location_patterns` */
  const LocationPatterns: seq<Pattern> := [Labelled("地点"), Grouped(Cities)]

  // ---------------------------------------------------------------------
  // `(\d+K-\d+K|\d+K-\d+万|\d+-\d+K)`

  /** The end of the run of ASCII digits that starts at `i`. */
  function DigitRunEnd(s: String, i: nat): (j: nat)
    requires i <= |s|
    ensures i <= j <= |s|
    ensures forall k :: i <= k < j ==> IsDigit(s[k])
    ensures j < |s| ==> !IsDigit(s[j])
    decreases |s| - i
  {
    if i < |s| && IsDigit(s[i]) then DigitRunEnd(s, i + 1) else i
  }

  /** What a salary text looks like: a number, a dash, a number, and a unit
    * `K` or `万`, with `K` also after the first number. */
  predicate SalaryText(v: String) {
    && |v| >= 4
    && IsDigit(v[0])
    && (v[|v| - 1] == 'K' || v[|v| - 1] == '万')
    && '-' in v
    && forall k :: 0 <= k < |v| ==> IsDigit(v[k]) || v[k] == 'K' || v[k] == '-' || v[k] == '万'
  }

  /** The characters of `s` from `lo` to `hi` are all ASCII digits. */
  predicate DigitsIn(s: String, lo: int, hi: int)
    requires 0 <= lo <= hi <= |s|
  {
    forall k :: lo <= k < hi ==> IsDigit(s[k])
  }

  /** The pattern matches `s[i..b + 1]`, its first number ending at `a` and its
    * second at `b`: `\d+K-\d+K`, `\d+K-\d+万` or `\d+-\d+K`. */
  predicate SalarySplit(s: String, i: int, a: int, b: int) {
    && 0 <= i < a < b < |s|
    && DigitsIn(s, i, a)
    && (|| (&& s[a] == 'K' && a + 2 < b && s[a + 1] == '-' && DigitsIn(s, a + 2, b)
            && (s[b] == 'K' || s[b] == '万'))
        || (&& s[a] == '-' && a + 1 < b && DigitsIn(s, a + 1, b) && s[b] == 'K'))
  }

  /** A match at `i` takes both digit runs whole, so there is at most one. */
  lemma SalarySplitFollowsRuns(s: String, i: int, a: int, b: int)
    ensures SalarySplit(s, i, a, b) ==>
      && a == DigitRunEnd(s, i)
      && b == DigitRunEnd(s, if s[a] == 'K' then a + 2 else a + 1)
  {
    if SalarySplit(s, i, a, b) {
      var a' := DigitRunEnd(s, i);
      assert !IsDigit(s[a]);
      var c := if s[a] == 'K' then a + 2 else a + 1;
      var b' := DigitRunEnd(s, c);
      assert !IsDigit(s[b]);
    }
  }

  lemma SalarySplitsFollowRuns(s: String, i: int)
    ensures forall a, b :: SalarySplit(s, i, a, b) ==>
      && a == DigitRunEnd(s, i)
      && b == DigitRunEnd(s, if s[a] == 'K' then a + 2 else a + 1)
  {
    forall a, b
      ensures SalarySplit(s, i, a, b) ==>
        && a == DigitRunEnd(s, i)
        && b == DigitRunEnd(s, if s[a] == 'K' then a + 2 else a + 1)
    {
      SalarySplitFollowsRuns(s, i, a, b);
    }
  }

  /** A match of the salary pattern is a salary text. */
  lemma SplitIsSalaryText(s: String, i: int, a: int, b: int)
    requires SalarySplit(s, i, a, b)
    ensures SalaryText(s[i..b + 1])
  {
    var v := s[i..b + 1];
    assert v[a - i] == s[a];
    assert s[a] == '-' || v[a + 1 - i] == '-';
  }

  /** Where the salary pattern tried at index `i` ends its second number. A
    * run of digits is always taken whole: giving a digit back leaves a digit
    * where `K` or `-` is needed. */
  function SalaryEnd(s: String, i: nat): (r: Option<nat>)
    requires i <= |s|
    ensures r.Some? ==> SalarySplit(s, i, DigitRunEnd(s, i), r.value)
    ensures r.None? ==> forall a, b :: !SalarySplit(s, i, a, b)
  {
    SalarySplitsFollowRuns(s, i);
    var a := DigitRunEnd(s, i);
    if a == i || a == |s| then None
    else if s[a] == 'K' && a + 1 < |s| && s[a + 1] == '-' then
      var b := DigitRunEnd(s, a + 2);
      if b > a + 2 && b < |s| && (s[b] == 'K' || s[b] == '万') then Some(b) else None
    else if s[a] == '-' then
      var b := DigitRunEnd(s, a + 1);
      if b > a + 1 && b < |s| && s[b] == 'K' then Some(b) else None
    else None
  }

  /** The salary pattern tried at index `i`: the one text of the three shapes
    * that starts there, if any. */
  function SalaryAt(s: String, i: nat): (r: Option<String>)
    requires i <= |s|
    ensures r.Some? ==> SalaryText(r.value) && ContainsAt(s, r.value, i)
    ensures r.Some? ==> exists a, b :: SalarySplit(s, i, a, b) && r.value == s[i..b + 1]
    ensures r.None? <==> forall a, b :: !SalarySplit(s, i, a, b)
  {
    match SalaryEnd(s, i)
    case None => None
    case Some(b) =>
      SplitIsSalaryText(s, i, DigitRunEnd(s, i), b);
      Some(s[i..b + 1])
  }

  /** `re.search(salary_pattern, s).group(1)`: the salary at the leftmost index
    * where the pattern matches. */
  function SalaryFrom(s: String, from: nat): (r: Option<String>)
    requires from <= |s|
    ensures r.Some? ==> SalaryText(r.value) && Contains(s, r.value)
    ensures r.None? ==> forall k :: from <= k <= |s| ==> SalaryAt(s, k).None?
    ensures r.Some? ==> exists k :: from <= k <= |s| && r == SalaryAt(s, k)
                                    && forall j :: from <= j < k ==> SalaryAt(s, j).None?
    decreases |s| - from
  {
    match SalaryAt(s, from)
    case Some(v) => Some(v)
    case None =>
      if from == |s| then None
      else
        var r := SalaryFrom(s, from + 1);
        assert r.Some? ==> exists k :: from <= k <= |s| && r == SalaryAt(s, k)
                                       && forall j :: from <= j < k ==> SalaryAt(s, j).None?;
        r
  }

  function Salary(s: String): Option<String> {
    SalaryFrom(s, 0)
  }

  // ---------------------------------------------------------------------
  // The requirement and responsibility blocks

  /** `[：:\n]` */
  predicate BlockSeparator(c: char) {
    c == '：' || c == ':' || c == '\n'
  }

  /** The end of the run of `[：:\n]` that starts at `i`. */
  function SkipBlockSeparators(s: String, i: nat): (j: nat)
    requires i <= |s|
    ensures i <= j <= |s|
    ensures forall k :: i <= k < j ==> BlockSeparator(s[k])
    ensures j < |s| ==> !BlockSeparator(s[j])
    decreases |s| - i
  {
    if i < |s| && BlockSeparator(s[i]) then SkipBlockSeparators(s, i + 1) else i
  }

  /** `$`: the end of the text, or just before a `\n` that ends it. */
  predicate AtEnd(s: String, i: nat) {
    i == |s| || (i + 1 == |s| && s[i] == '\n')
  }

  /** Where the lazy `([\s\S]*?)` that starts at `i` ends: at the first index
    * where one of `stops` occurs or `$` holds. */
  function BlockEnd(s: String, i: nat, stops: seq<String>): (e: nat)
    requires i <= |s|
    ensures i <= e <= |s|
    ensures AtEnd(s, e) || WordAt(s, stops, e).Some?
    ensures forall k :: i <= k < e ==> !AtEnd(s, k) && WordAt(s, stops, k).None?
    decreases |s| - i
  {
    if AtEnd(s, i) || WordAt(s, stops, i).Some? then i else BlockEnd(s, i + 1, stops)
  }

  /** Group 1 of `[：:\n]*([\s\S]*?)(?:stops|$)` matched from `start`. */
  function Block(s: String, start: nat, stops: seq<String>): String
    requires start <= |s|
  {
    var k := SkipBlockSeparators(s, start);
    s[k..BlockEnd(s, k, stops)]
  }

  /** `[要求|资格]` is a character class: it matches one of 要, 求, |, 资 and 格. */
  predicate RequirementMark(c: char) {
    c in "要求|资格"
  }

  /** The first index at or after `from` where `任职[要求|资格]` matches. */
  function RequirementHead(s: String, from: nat): (r: Option<nat>)
    ensures r.Some? ==> from <= r.value && r.value + 3 <= |s| && ContainsAt(s, "任职", r.value)
    ensures r.Some? ==> RequirementMark(s[r.value + 2])
    decreases |s| + 1 - from
  {
    match FindFrom(s, "任职", from)
    case None => None
    case Some(i) =>
      if i + 2 < |s| && RequirementMark(s[i + 2]) then Some(i)
      else RequirementHead(s, i + 1)
  }

  const RequirementStops: seq<String> := ["职责", "工作内容", "联系方式"]
  const ResponsibilityStops: seq<String> := ["要求", "任职", "资格", "联系方式"]

  /** `req_section.group(1)` */
  function RequirementsBlock(s: String): Option<String> {
    match RequirementHead(s, 0)
    case None => None
    case Some(i) => Some(Block(s, i + 3, RequirementStops))
  }

  /** `resp_section.group(1)` */
  function ResponsibilitiesBlock(s: String): Option<String> {
    match Find(s, "职责")
    case None => None
    case Some(i) => Some(Block(s, i + 2, ResponsibilityStops))
  }

  /** The first index at or after `from` where one of `words` occurs. */
  function FirstIndex(s: String, words: seq<String>, from: nat): (r: Option<nat>)
    ensures r.Some? ==> from <= r.value && WordAt(s, words, r.value).Some?
    ensures forall k :: from <= k && (r.None? || k < r.value) ==> WordAt(s, words, k).None?
    decreases |s| + 1 - from
  {
    if from > |s| then None
    else if WordAt(s, words, from).Some? then Some(from)
    else FirstIndex(s, words, from + 1)
  }

  const RequirementHeadings: seq<String> := ["任职要求", "任职资格"]

  /** The section `任职(?:要求|资格)[：:\n]*([\s\S]*?)(?:职责|工作内容|联系方式|$)`
    * evidently means: the whole heading is consumed before the block. */
  function IntendedRequirementsBlock(s: String): Option<String> {
    match FirstIndex(s, RequirementHeadings, 0)
    case None => None
    case Some(i) =>
      assert forall w :: w in RequirementHeadings ==> |w| == 4;
      Some(Block(s, i + 4, RequirementStops))
  }

  /** A block ends where the first terminator or the end is: no terminator
    * starts inside it, and the text after it starts with one unless the
    * block runs to the end. */
  lemma BlockStopsAtFirstTerminator(s: String, start: nat, stops: seq<String>)
    requires start <= |s|
    ensures Contains(s, Block(s, start, stops))
    ensures var k := SkipBlockSeparators(s, start);
      var e := k + |Block(s, start, stops)|;
      && (forall p, t :: k <= p < e && t in stops ==> !ContainsAt(s, t, p))
      && (AtEnd(s, e) || exists t :: t in stops && ContainsAt(s, t, e))
  {
    var k := SkipBlockSeparators(s, start);
    var e := BlockEnd(s, k, stops);
    assert Block(s, start, stops) == s[k..e];
    assert ContainsAt(s, Block(s, start, stops), k);
    forall p, t | k <= p < e && t in stops
      ensures !ContainsAt(s, t, p)
    {
      assert WordAt(s, stops, p).None?;
    }
    if !AtEnd(s, e) {
      var t := WordAt(s, stops, e).value;
      assert t in stops && ContainsAt(s, t, e);
    }
  }

  // ---------------------------------------------------------------------
  // Lines and skills

  /** `[f(line) for line in lines if len(f(line)) > 5]` */
  function KeptBy(lines: seq<String>, f: String -> String): seq<String> {
    if lines == [] then []
    else
      var t := f(lines[|lines| - 1]);
      KeptBy(lines[..|lines| - 1], f) + (if |t| > 5 then [t] else [])
  }

  /** One more line through the filter. */
  lemma KeptByStep(lines: seq<String>, i: nat, f: String -> String)
    requires i < |lines|
    ensures KeptBy(lines[..i + 1], f) ==
      KeptBy(lines[..i], f) + (if |f(lines[i])| > 5 then [f(lines[i])] else [])
  {
    assert lines[..i + 1][..i] == lines[..i];
  }

  /** `[line.strip() for line in lines if len(line.strip()) > 5]` */
  function KeptLines(lines: seq<String>): seq<String> {
    KeptBy(lines, Strip)
  }

  /** The kept images are exactly the images longer than five characters. */
  lemma {:induction false} KeptByIff(lines: seq<String>, f: String -> String, x: String)
    ensures x in KeptBy(lines, f) <==> exists l :: l in lines && x == f(l) && |x| > 5
    decreases |lines|
  {
    if lines != [] {
      var init, last := lines[..|lines| - 1], lines[|lines| - 1];
      var t := f(last);
      KeptByIff(init, f, x);
      assert lines == init + [last];
      assert KeptBy(lines, f) == KeptBy(init, f) + (if |t| > 5 then [t] else []);
      if x in KeptBy(lines, f) {
        if x in KeptBy(init, f) {
          var l :| l in init && x == f(l) && |x| > 5;
          assert l in lines;
        } else {
          assert x == t && last in lines;
        }
      }
    }
  }

  /** The lines `parse_jd` keeps from a block are exactly the stripped lines
    * longer than five characters. */
  lemma KeptLinesAre(lines: seq<String>)
    ensures forall x :: x in KeptLines(lines) <==> exists l :: l in lines && x == Strip(l) && |x| > 5
  {
    forall x
      ensures x in KeptLines(lines) <==> exists l :: l in lines && x == Strip(l) && |x| > 5
    {
      KeptByIff(lines, Strip, x);
    }
  }

  /** A kept line strips to itself, and there are no more kept lines than
    * lines. */
  lemma {:induction false} KeptLinesStripped(lines: seq<String>)
    ensures forall x :: x in KeptLines(lines) ==> Strip(x) == x && |x| > 5
    ensures |KeptLines(lines)| <= |lines|
  {
    if lines != [] {
      KeptLinesStripped(lines[..|lines| - 1]);
      StripIdempotent(lines[|lines| - 1]);
    }
  }

  /** The line filter over a block's `split('\n')`. */
  method KeepLines(block: String) returns (kept: seq<String>)
    ensures kept == KeptLines(Split(block, '\n'))
  {
    var lines := Split(block, '\n');
    kept := [];
    for i := 0 to |lines|
      invariant kept == KeptLines(lines[..i])
    {
      KeptByStep(lines, i, Strip);
      var line := Strip(lines[i]);
      if |line| > 5 {
        kept := kept + [line];
      }
    }
    assert lines[..|lines|] == lines;
  }

  /** The kept lines of a block, `[]` when the section is not found. */
  function BlockLines(block: Option<String>): seq<String> {
    match block
    case None => []
    case Some(b) => KeptLines(Split(b, '\n'))
  }

  /** `skill_keywords` */
  const SkillKeywords: seq<String> := [
    "Python", "Java", "Go", "JavaScript", "TypeScript", "C++",
    "React", "Vue", "Angular", "Node.js",
    "Django", "Flask", "Spring Boot", "FastAPI",
    "MySQL", "PostgreSQL", "MongoDB", "Redis", "Elasticsearch",
    "Docker", "Kubernetes", "Jenkins", "Git",
    "AWS", "Azure", "GCP",
    "机器学习", "深度学习", "TensorFlow", "PyTorch",
    "NLP", "计算机视觉", "算法"]

  /** `[skill for skill in vocabulary if skill in text]` */
  function Present(vocabulary: seq<String>, text: String): seq<String> {
    if vocabulary == [] then []
    else
      var w := vocabulary[|vocabulary| - 1];
      Present(vocabulary[..|vocabulary| - 1], text) + (if Contains(text, w) then [w] else [])
  }

  /** The skills found are exactly the vocabulary words the text contains, in
    * vocabulary order: the k-th word found sits at a vocabulary position
    * after that of the (k-1)-th. */
  lemma {:induction false} PresentAre(vocabulary: seq<String>, text: String)
    ensures forall w :: w in Present(vocabulary, text) <==> w in vocabulary && Contains(text, w)
    ensures |Present(vocabulary, text)| <= |vocabulary|
    ensures (forall i, j :: 0 <= i < j < |vocabulary| ==> vocabulary[i] != vocabulary[j]) ==>
      forall i, j :: 0 <= i < j < |Present(vocabulary, text)| ==>
        Present(vocabulary, text)[i] != Present(vocabulary, text)[j]
  {
    forall x
      ensures x in Present(vocabulary, text) <==> x in vocabulary && Contains(text, x)
    {
      PresentIff(vocabulary, text, x);
    }
    PresentShort(vocabulary, text);
    if forall i, j :: 0 <= i < j < |vocabulary| ==> vocabulary[i] != vocabulary[j] {
      PresentDistinct(vocabulary, text);
    }
  }

  lemma {:induction false} PresentIff(vocabulary: seq<String>, text: String, x: String)
    ensures x in Present(vocabulary, text) <==> x in vocabulary && Contains(text, x)
    decreases |vocabulary|
  {
    if vocabulary != [] {
      var init, w := vocabulary[..|vocabulary| - 1], vocabulary[|vocabulary| - 1];
      PresentIff(init, text, x);
      assert vocabulary == init + [w];
    }
  }

  lemma {:induction false} PresentShort(vocabulary: seq<String>, text: String)
    ensures |Present(vocabulary, text)| <= |vocabulary|
    decreases |vocabulary|
  {
    if vocabulary != [] {
      PresentShort(vocabulary[..|vocabulary| - 1], text);
    }
  }

  lemma {:induction false} PresentDistinct(vocabulary: seq<String>, text: String)
    requires forall i, j :: 0 <= i < j < |vocabulary| ==> vocabulary[i] != vocabulary[j]
    ensures forall i, j :: 0 <= i < j < |Present(vocabulary, text)| ==>
      Present(vocabulary, text)[i] != Present(vocabulary, text)[j]
    decreases |vocabulary|
  {
    if vocabulary != [] {
      var init, w := vocabulary[..|vocabulary| - 1], vocabulary[|vocabulary| - 1];
      assert forall i :: 0 <= i < |init| ==> init[i] == vocabulary[i];
      PresentDistinct(init, text);
      var p := Present(init, text);
      var all := Present(vocabulary, text);
      assert all == p + (if Contains(text, w) then [w] else []);
      forall i, j | 0 <= i < j < |all|
        ensures all[i] != all[j]
      {
        if j == |p| {
          assert all[i] == p[i] && all[j] == w;
          PresentIff(init, text, p[i]);
        }
      }
    }
  }

  /** The skill sweep. */
  method FindSkills(text: String) returns (skills: seq<String>)
    ensures skills == Present(SkillKeywords, text)
  {
    skills := [];
    for i := 0 to |SkillKeywords|
      invariant skills == Present(SkillKeywords[..i], text)
    {
      assert SkillKeywords[..i + 1][..i] == SkillKeywords[..i];
      if Contains(text, SkillKeywords[i]) {
        skills := skills + [SkillKeywords[i]];
      }
    }
    assert SkillKeywords[..|SkillKeywords|] == SkillKeywords;
  }

  // ---------------------------------------------------------------------
  // `parse_jd`

  datatype JobDescription = JobDescription(
    title: String, company: String, salary: String, location: String,
    requirements: seq<String>, responsibilities: seq<String>, skills: seq<String>)

  /** `parse_jd(text)`: the title and the company may raise `IndexError`
    * (in that order); every other field has a default. The requirements are
    * read after the whole `任职要求` or `任职资格` heading, as the pattern means
    * (see `RequirementsHeadingRemnant` for what it does as written). */
  function ParsedJd(text: String): (r: Result<JobDescription, Failure>)
    ensures r.Err? ==> r.error == IndexError
    ensures r.Ok? ==> forall w :: w in r.value.skills <==> w in SkillKeywords && Contains(text, w)
    ensures r.Ok? ==> |r.value.skills| <= |SkillKeywords|
  {
    PresentAre(SkillKeywords, text);
    var title := Field(text, TitlePatterns);
    var company := Field(text, CompanyPatterns);
    if title.Err? then Err(title.error)
    else if company.Err? then Err(company.error)
    else
      GroupedFieldsNeverRaise(text, LocationPatterns);
      Ok(JobDescription(
        title.value, company.value, Salary(text).GetOr(""), Field(text, LocationPatterns).value,
        BlockLines(IntendedRequirementsBlock(text)), BlockLines(ResponsibilitiesBlock(text)),
        Present(SkillKeywords, text)))
  }

  /** `parse_jd(text)` exactly as written: the requirements are read after the
    * one-character class of `任职[要求|资格]`. */
  function ParsedJdAsWritten(text: String): Result<JobDescription, Failure> {
    match ParsedJd(text)
    case Err(f) => Err(f)
    case Ok(jd) => Ok(jd.(requirements := BlockLines(RequirementsBlock(text))))
  }

  /** As written and corrected, `parse_jd` raises in the same cases and reads
    * the same fields, except the requirements. */
  lemma ParsedJdAsWrittenDiffers(text: String)
    ensures ParsedJdAsWritten(text).Err? <==> ParsedJd(text).Err?
    ensures ParsedJd(text).Ok? ==>
      ParsedJdAsWritten(text).value.(requirements := []) == ParsedJd(text).value.(requirements := [])
    ensures ParsedJd(text).Ok? ==>
      && ParsedJdAsWritten(text).value.requirements == BlockLines(RequirementsBlock(text))
      && ParsedJd(text).value.requirements == BlockLines(IntendedRequirementsBlock(text))
  {
  }

  /** For `任职要求：精通Python开发` the requirement lines as written and
    * corrected differ. */
  lemma RequirementLinesDiffer()
    ensures BlockLines(RequirementsBlock("任职" + "要求" + "：" + "精通Python开发")) == ["求：" + "精通Python开发"]
    ensures BlockLines(IntendedRequirementsBlock("任职" + "要求" + "：" + "精通Python开发")) == ["精通Python开发"]
  {
    RequirementsKeepHeadingRemnant();
    SampleLinesKept("求：", "精通Python开发");
  }

  lemma SampleLinesKept(head: String, body: String)
    requires head == "求：" && body == "精通Python开发"
    ensures BlockLines(Some(head + body)) == [head + body]
    ensures BlockLines(Some(body)) == [body]
  {
    assert |body| == 10 && body[0] == '精' && body[9] == '发';
    assert '\n' !in body;
    assert !IsSpace(body[0]) && !IsSpace(body[9]);
    OneKeptLine(body);
    assert |head| == 2 && head[0] == '求' && '\n' !in head;
    assert !IsSpace(head[0]);
    var b := head + body;
    assert b[0] == head[0] && b[|b| - 1] == body[9];
    OneKeptLine(b);
  }

  /** A block of one line with no whitespace at its ends and more than five
    * characters is kept whole. */
  lemma OneKeptLine(b: String)
    requires '\n' !in b && |b| > 5 && !IsSpace(b[0]) && !IsSpace(b[|b| - 1])
    ensures BlockLines(Some(b)) == [b]
  {
    assert IndexOfChar(b, '\n') == |b|;
    assert Split(b, '\n') == [b];
    StripOfTrimmed(b);
    assert [b][..0] == [];
    assert KeptBy([b], Strip) == KeptBy([], Strip) + [Strip(b)];
  }

  method ParseJd(text: String) returns (r: Result<JobDescription, Failure>)
    ensures r == ParsedJd(text)
  {
    var title := ExtractField(text, TitlePatterns);
    if title.Err? {
      return Err(title.error);
    }
    var company := ExtractField(text, CompanyPatterns);
    if company.Err? {
      return Err(company.error);
    }
    var salary := Salary(text).GetOr("");
    var location := ExtractField(text, LocationPatterns);
    GroupedFieldsNeverRaise(text, LocationPatterns);
    var requirements := [];
    var block := IntendedRequirementsBlock(text);
    if block.Some? {
      requirements := KeepLines(block.value);
    }
    var responsibilities := [];
    block := ResponsibilitiesBlock(text);
    if block.Some? {
      responsibilities := KeepLines(block.value);
    }
    var skills := FindSkills(text);
    r := Ok(JobDescription(
      title.value, company.value, salary, location.value,
      requirements, responsibilities, skills));
  }

  // ---------------------------------------------------------------------
  // What `parse_jd` promises

  /** `parse_jd` raises only `IndexError`, and only when a title word or a
    * company name matches a pattern that has no group 1: a text with none of
    * them is always parsed. */
  lemma JdRaisesOnlyOnFallbacks(text: String)
    ensures ParsedJd(text).Err? ==> ParsedJd(text).error == IndexError
    ensures ParsedJd(text).Err? ==>
      (exists w :: w in TitleWords && WordHit(text, w, true)) ||
      (exists w :: w in CompanyNames && WordHit(text, w, false))
  {
    if Field(text, TitlePatterns).Err? {
      FieldRaises(text, TitlePatterns);
      var k :| 0 <= k < |TitlePatterns| && TitlePatterns[k].Ungrouped? && SearchPattern(text, TitlePatterns[k]).Some?;
      assert k == 3;
    } else if Field(text, CompanyPatterns).Err? {
      FieldRaises(text, CompanyPatterns);
      var k :| 0 <= k < |CompanyPatterns| && CompanyPatterns[k].Ungrouped? && SearchPattern(text, CompanyPatterns[k]).Some?;
      assert k == 1;
    }
  }

  /** When no title label is present, a title word followed by more text on
    * its line is found by the last title pattern, which has no group. */
  lemma UnlabelledTitleField(text: String, w: String)
    requires !Contains(text, "职位") && !Contains(text, "岗位") && !Contains(text, "招聘")
    requires w in TitleWords && WordHit(text, w, true)
    ensures Field(text, TitlePatterns) == Err(IndexError)
  {
    var ps := TitlePatterns;
    var p1, p2, p3 := ps[1..], ps[2..], ps[3..];
    assert p1[1..] == p2 && p2[1..] == p3 && p3[0] == Ungrouped(TitleWords, true);
    assert SearchPattern(text, p3[0]) == Some(NoGroup);
    assert FirstHit(text, p3) == Some(NoGroup);
    assert SearchPattern(text, p2[0]) == None;
    assert FirstHit(text, p2) == Some(NoGroup);
    assert SearchPattern(text, p1[0]) == None;
    assert FirstHit(text, p1) == Some(NoGroup);
    assert SearchPattern(text, ps[0]) == None;
  }

  /** The converse of `JdRaisesOnlyOnFallbacks` for titles: an unlabelled
    * title word makes `parse_jd` raise. */
  lemma UnlabelledTitleRaises(text: String, w: String)
    requires !Contains(text, "职位") && !Contains(text, "岗位") && !Contains(text, "招聘")
    requires w in TitleWords && WordHit(text, w, true)
    ensures ParsedJd(text) == Err(IndexError)
  {
    UnlabelledTitleField(text, w);
  }

  /** When no company label is present, a company name is found by the
    * pattern that has no group. */
  lemma CompanyNameField(text: String, w: String)
    requires !Contains(text, "公司")
    requires w in CompanyNames && Contains(text, w)
    ensures Field(text, CompanyPatterns) == Err(IndexError)
  {
    var ps := CompanyPatterns;
    assert WordHit(text, w, false);
    assert ps[1..][0] == Ungrouped(CompanyNames, false);
    assert SearchPattern(text, ps[1..][0]) == Some(NoGroup);
    assert FirstHit(text, ps[1..]) == Some(NoGroup);
    assert SearchPattern(text, ps[0]) == None;
  }

  /** The converse for companies: once the title is read, an unlabelled
    * company name makes `parse_jd` raise. */
  lemma CompanyNameRaises(text: String, w: String)
    requires Field(text, TitlePatterns).Ok?
    requires !Contains(text, "公司")
    requires w in CompanyNames && Contains(text, w)
    ensures ParsedJd(text) == Err(IndexError)
  {
    CompanyNameField(text, w);
  }

  /** `parse_jd("Python开发工程师")` raises: its title is found by the last
    * title pattern, which has no group. */
  lemma TitleWordAloneRaises()
    ensures ParsedJd("Python开发工程师") == Err(IndexError)
  {
    var t := "Python开发工程师";
    MissingCharNotContained(t, "职位", 0);
    MissingCharNotContained(t, "岗位", 0);
    MissingCharNotContained(t, "招聘", 0);
    assert t[0..6] == "Python" && t[6] == '开';
    assert ContainsAt(t, "Python", 0);
    assert WordHit(t, "Python", true);
    UnlabelledTitleRaises(t, "Python");
  }

  /** A first line `职位：v` gives the title `v`, whatever follows it. */
  lemma TitleFromLabel(v: String, rest: String)
    requires |v| >= 1 && '\n' !in v && !FieldSeparator(v[0]) && !IsSpace(v[|v| - 1])
    ensures Field("职位：" + v + "\n" + rest, TitlePatterns) == Ok(v)
  {
    var t := "职位：" + v + "\n" + rest;
    assert t[..2] == "职位" && t[2] == '：' && t[3] == v[0];
    assert ContainsAt(t, "职位", 0);
    assert SkipFieldSeparators(t, 2) == 3 by {
      assert SkipFieldSeparators(t, 2) == SkipFieldSeparators(t, 3);
    }
    forall k | 3 <= k < 3 + |v|
      ensures t[k] != '\n'
    {
      assert t[k] == v[k - 3];
    }
    assert t[3 + |v|] == '\n';
    assert LineEnd(t, 3) == 3 + |v|;
    assert t[3..3 + |v|] == v;
    assert LabelledGroup(t, "职位", 0) == Some(v);
    StripOfTrimmed(v);
  }

  /** A text that never holds `\n` before its end runs a block to the end
    * when no terminator starts in it. */
  lemma BlockRunsToEnd(s: String, k: nat, stops: seq<String>)
    requires k <= |s|
    requires forall p :: k <= p < |s| ==> WordAt(s, stops, p).None?
    requires |s| == k || s[|s| - 1] != '\n'
    ensures BlockEnd(s, k, stops) == |s|
  {
  }

  /** A word that does not occur in `body` at `p` does not occur at the
    * same place in a text that ends with `body`. */
  lemma ContainsAtShift(pre: String, body: String, w: String, p: nat)
    ensures !ContainsAt(body, w, p) ==> !ContainsAt(pre + body, w, |pre| + p)
  {
    if p + |w| <= |body| {
      assert (pre + body)[|pre| + p..|pre| + p + |w|] == body[p..p + |w|];
    }
  }

  /** A stop word whose first character is not at `i` does not occur at `i`. */
  lemma NotAtOtherHead(s: String, w: String, i: nat)
    requires i < |s| && |w| > 0 && s[i] != w[0]
    ensures !ContainsAt(s, w, i)
  {
    if i + |w| <= |s| {
      assert s[i..i + |w|][0] == s[i];
    }
  }

  /** No requirement terminator starts at a character none of them starts
    * with. */
  lemma NoRequirementStopAt(s: String, i: nat)
    requires i < |s| && s[i] != '职' && s[i] != '工' && s[i] != '联'
    ensures WordAt(s, RequirementStops, i).None?
  {
    NotAtOtherHead(s, "职责", i);
    NotAtOtherHead(s, "工作内容", i);
    NotAtOtherHead(s, "联系方式", i);
  }

  /** What the intended pattern reads from `任职` + h + `：` + body. */
  lemma HeadedText(h: String, body: String)
    requires h == "要求" || h == "资格"
    requires body == [] || !BlockSeparator(body[0])
    ensures var t := "任职" + h + "：" + body;
      && |t| == |body| + 5 && t[5..] == body
      && t[3] == h[1] && t[4] == '：' && ContainsAt(t, "任职", 0)
      && IntendedRequirementsBlock(t) == Some(t[5..BlockEnd(t, 5, RequirementStops)])
  {
    var t := "任职" + h + "：" + body;
    assert t[..2] == "任职" && t[2] == h[0] && t[3] == h[1] && t[4] == '：';
    assert t[..4] == "任职" + h;
    assert ContainsAt(t, "任职" + h, 0);
    assert WordAt(t, RequirementHeadings, 0).Some?;
    assert FirstIndex(t, RequirementHeadings, 0) == Some(0);
    assert SkipBlockSeparators(t, 4) == 5 by {
      assert SkipBlockSeparators(t, 4) == SkipBlockSeparators(t, 5);
    }
    assert t[5..] == body;
  }

  /** What the pattern as written reads from `任职` + h + `：` + body: from
    * the second character of `h` on. */
  lemma HeadedTextAsWritten(h: String, body: String)
    requires h == "要求" || h == "资格"
    requires body == [] || !BlockSeparator(body[0])
    ensures var t := "任职" + h + "：" + body;
      RequirementsBlock(t) == Some(t[3..BlockEnd(t, 5, RequirementStops)])
  {
    var t := "任职" + h + "：" + body;
    assert t[..2] == "任职" && t[2] == h[0] && t[3] == h[1] && t[4] == '：';
    assert ContainsAt(t, "任职", 0);
    AsWrittenBlockAtStart(t);
  }

  /** A text that opens with `任职`, a marked character and two characters
    * that neither separate nor stop: the section as written starts at index 3. */
  lemma AsWrittenBlockAtStart(t: String)
    requires |t| >= 5 && ContainsAt(t, "任职", 0) && RequirementMark(t[2]) && !BlockSeparator(t[3])
    requires t[3] != '职' && t[3] != '工' && t[3] != '联'
    requires t[4] != '职' && t[4] != '工' && t[4] != '联' && t[4] != '\n'
    ensures RequirementsBlock(t) == Some(t[3..BlockEnd(t, 5, RequirementStops)])
  {
    assert RequirementHead(t, 0) == Some(0);
    assert SkipBlockSeparators(t, 3) == 3;
    NoRequirementStopAt(t, 3);
    NoRequirementStopAt(t, 4);
    assert BlockEnd(t, 3, RequirementStops) == BlockEnd(t, 4, RequirementStops);
    assert BlockEnd(t, 4, RequirementStops) == BlockEnd(t, 5, RequirementStops);
  }

  /** As written, `[要求|资格]` is a one-character class, so for a heading
    * `任职要求：` only `任职要` is consumed and the section starts with the
    * leftover `求：` ahead of what the intended pattern reads. */
  lemma RequirementsHeadingRemnant(h: String, body: String)
    requires h == "要求" || h == "资格"
    requires body == [] || !BlockSeparator(body[0])
    ensures IntendedRequirementsBlock("任职" + h + "：" + body).Some?
    ensures RequirementsBlock("任职" + h + "：" + body) ==
      Some([h[1], '：'] + IntendedRequirementsBlock("任职" + h + "：" + body).value)
  {
    var t := "任职" + h + "：" + body;
    HeadedText(h, body);
    HeadedTextAsWritten(h, body);
    SliceAfterPair(t, BlockEnd(t, 5, RequirementStops));
  }

  /** A slice from 3 is the characters at 3 and 4 followed by the slice from 5. */
  lemma SliceAfterPair(t: String, e: nat)
    requires 5 <= e <= |t|
    ensures t[3..e] == [t[3], t[4]] + t[5..e]
  {
  }

  /** The intended section is the start of the text after the heading and its
    * separators. */
  lemma IntendedRequirementsFollowHeading(h: String, body: String)
    requires h == "要求" || h == "资格"
    requires body == [] || !BlockSeparator(body[0])
    ensures IntendedRequirementsBlock("任职" + h + "：" + body).Some?
    ensures StartsWith(body, IntendedRequirementsBlock("任职" + h + "：" + body).value)
  {
    var t := "任职" + h + "：" + body;
    HeadedText(h, body);
    var e := BlockEnd(t, 5, RequirementStops);
    assert t[5..e] == body[..e - 5];
  }

  /** With no terminator in it and no final `\n`, the intended section is the
    * whole of the text after the heading. */
  lemma IntendedRequirementsTakeAll(h: String, body: String)
    requires h == "要求" || h == "资格"
    requires body == [] || !BlockSeparator(body[0])
    requires forall w :: w in RequirementStops ==> !Contains(body, w)
    requires body == [] || body[|body| - 1] != '\n'
    ensures IntendedRequirementsBlock("任职" + h + "：" + body) == Some(body)
  {
    var pre := "任职" + h + "：";
    var t := pre + body;
    HeadedText(h, body);
    assert |pre| == 5;
    forall p, w | 5 <= p < |t| && w in RequirementStops
      ensures !ContainsAt(t, w, p)
    {
      ContainsAtShift(pre, body, w, p - 5);
    }
    forall p | 5 <= p < |t|
      ensures WordAt(t, RequirementStops, p).None?
    {
    }
    assert |t| == 5 || t[|t| - 1] == body[|body| - 1];
    BlockRunsToEnd(t, 5, RequirementStops);
    assert t[5..BlockEnd(t, 5, RequirementStops)] == body;
  }

  /** For `任职要求：精通Python开发` the requirement read is `求：精通Python开发`
    * where `精通Python开发` is meant. */
  lemma RequirementsKeepHeadingRemnant()
    ensures RequirementsBlock("任职" + "要求" + "：" + "精通Python开发") == Some("求：" + "精通Python开发")
    ensures IntendedRequirementsBlock("任职" + "要求" + "：" + "精通Python开发") == Some("精通Python开发")
  {
    var body := "精通Python开发";
    MissingCharNotContained(body, "职责", 0);
    MissingCharNotContained(body, "工作内容", 0);
    MissingCharNotContained(body, "联系方式", 0);
    IntendedRequirementsTakeAll("要求", body);
    RequirementsHeadingRemnant("要求", body);
    assert ["要求"[1], '：'] == "求：";
  }
}
