/** Side-by-side comparison of two resumes (utils/comparator.py): skill-set
  * partition, sub-scores for skills, experience and education, the weighted
  * overall score and the capped list of recommendations. Scores that the
  * source computes in floating point are computed here on rationals, with
  * Python's round-half-even. */
module Comparator {
  import opened Wrappers
  import opened Text
  import opened Resume
  import FileParser

  // ---------------------------------------------------------------------------
  // Rounding

  /** Python's `round(n / d)`: the integer nearest to the exact quotient, ties
    * to even. Every score below is such a quotient of integers, so no real
    * arithmetic is needed. */
  function RoundDiv(n: int, d: int): (r: int)
    requires d > 0
    ensures 2 * (n - d * r) <= d && 2 * (d * r - n) <= d
    ensures (2 * (n - d * r) == d || 2 * (d * r - n) == d) ==> r % 2 == 0
  {
    var q, m := n / d, n % d;
    assert n == d * q + m && 0 <= m < d;
    Distribute(d, q, 1);
    if 2 * m < d then q
    else if 2 * m > d then q + 1
    else if q % 2 == 0 then q
    else q + 1
  }

  lemma RoundDivMonotone(n1: int, n2: int, d: int)
    requires d > 0 && n1 <= n2
    ensures RoundDiv(n1, d) <= RoundDiv(n2, d)
  {
    var r1, r2 := RoundDiv(n1, d), RoundDiv(n2, d);
    if r1 > r2 {
      MultiplyMonotone(d, r2 + 1, r1);
      Distribute(d, r2, 1);
      if r1 > r2 + 1 {
        MultiplyMonotone(d, r2 + 2, r1);
        Distribute(d, r2, 2);
      }
      assert false;
    }
  }

  lemma MultiplyMonotone(d: int, a: int, b: int)
    requires d > 0 && a <= b
    ensures d * a <= d * b
  {
  }

  lemma Distribute(d: int, a: int, k: int)
    ensures d * (a + k) == d * a + d * k
  {
  }

  lemma RoundDivExact(k: int, d: int)
    requires d > 0
    ensures RoundDiv(k * d, d) == k
  {
    var r := RoundDiv(k * d, d);
    if r < k {
      assert d * k >= d * (r + 1) by { MultiplyMonotone(d, r + 1, k); }
    } else if r > k {
      assert d * r >= d * (k + 1) by { MultiplyMonotone(d, k + 1, r); }
    }
  }

  // ---------------------------------------------------------------------------
  // Skills

  /** `set(s.strip() for s in skills if s.strip())` */
  function CleanSkills(skills: seq<String>): (r: set<String>)
    ensures forall t :: t in r <==> t != "" && exists s :: s in skills && Strip(s) == t
  {
    set s | s in skills && Strip(s) != "" :: Strip(s)
  }

  /** `skills.strip()`ped and non-blank, in input order with repeats: the order
    * in which the model lists the members of a set derived from them. */
  function StrippedNonBlank(skills: seq<String>): (r: seq<String>)
    ensures forall t :: t in r <==> t in CleanSkills(skills)
  {
    if skills == [] then []
    else
      var rest := StrippedNonBlank(skills[1..]);
      StrippedNonBlankStep(skills, rest);
      (if Strip(skills[0]) != "" then [Strip(skills[0])] else []) + rest
  }

  lemma StrippedNonBlankStep(skills: seq<String>, rest: seq<String>)
    requires skills != []
    requires forall t :: t in rest <==> t in CleanSkills(skills[1..])
    ensures forall t :: t in (if Strip(skills[0]) != "" then [Strip(skills[0])] else []) + rest <==> t in CleanSkills(skills)
  {
    assert skills == [skills[0]] + skills[1..];
    assert CleanSkills(skills) == CleanSkills(skills[1..]) + (if Strip(skills[0]) != "" then {Strip(skills[0])} else {});
  }

  /** The members of `s` listed in the order of their first occurrence in
    * `order`. Python lists a set in hash order, which no contract here relies on. */
  function ListIn(s: set<String>, order: seq<String>): (r: seq<String>)
    ensures FileParser.NoDuplicates(r)
    ensures forall t :: t in r <==> t in s && t in order
    ensures s == {} ==> r == []
  {
    FileParser.Distinct(Filter(s, order))
  }

  function Filter(s: set<String>, order: seq<String>): (r: seq<String>)
    ensures forall t :: t in r <==> t in s && t in order
    ensures s == {} ==> r == []
  {
    if order == [] then []
    else
      var init := order[..|order| - 1];
      var last := order[|order| - 1];
      assert order == init + [last];
      Filter(s, init) + (if last in s then [last] else [])
  }

  /** Skill sub-score of a resume with skill set `own` against one with skill
    * set `other`: 50 plus half the share of `own` that `other` also has, rounded. */
  function SkillScore(own: set<String>, other: set<String>): (r: int)
    ensures 50 <= r <= 100
    ensures own == {} ==> r == 50
    ensures own != {} && own <= other ==> r == 100
    ensures var d := if |own| > 1 then |own| else 1;
      r == RoundDiv(50 * |own * other| + 50 * d, d)
    ensures var d := if |own| > 1 then |own| else 1;
      var n := 50 * |own * other| + 50 * d;
      2 * (n - d * r) <= d && 2 * (d * r - n) <= d
  {
    var common := own * other;
    SubsetCardinality(common, own);
    var denominator := if |own| > 1 then |own| else 1;
    // |common| / denominator * 50 + 50, over the common denominator
    var n := 50 * |common| + 50 * denominator;
    assert own != {} && own <= other ==> common == own && |common| == denominator;
    RoundDivMonotone(50 * denominator, n, denominator);
    RoundDivMonotone(n, 100 * denominator, denominator);
    RoundDivExact(50, denominator);
    RoundDivExact(100, denominator);
    RoundDiv(n, denominator)
  }

  datatype SkillComparison = SkillComparison(
    skills1: set<String>, skills2: set<String>,
    common: set<String>, only1: set<String>, only2: set<String>,
    score1: int, score2: int,
    strengths: seq<String>, weaknesses: seq<String>)

  /** The overlap share as `f"{x:.0f}"` prints it: a percentage rounded half to even. */
  function OverlapPercent(common: nat, union: nat): String {
    IntToString(RoundDiv(100 * common, if union > 1 then union else 1)) + "%"
  }

  /** The two "unique skills" lines, present when either resume has a skill the other lacks. */
  function SkillStrengths(only1: set<String>, only2: set<String>): (r: seq<String>)
    ensures r == [] <==> only1 == {} && only2 == {}
    ensures |r| <= 2
  {
    if only1 != {} || only2 != {} then
      ["简历1拥有 " + IntToString(|only1|) + " 项独特技能",
       "简历2拥有 " + IntToString(|only2|) + " 项独特技能"]
    else []
  }

  /** The overlap line, present when both resumes list skills. */
  function SkillWeaknesses(s1: set<String>, s2: set<String>): (r: seq<String>)
    ensures |r| <= 1
    ensures |r| == 1 <==> s1 != {} && s2 != {}
  {
    if s1 != {} && s2 != {} then ["两份简历技能重复率 " + OverlapPercent(|s1 * s2|, |s1 + s2|)] else []
  }

  /** The comparison of two cleaned skill sets. */
  function CompareSkillSets(s1: set<String>, s2: set<String>): (c: SkillComparison)
    ensures c.skills1 == s1 && c.skills2 == s2
    ensures c.common == s1 * s2 && c.only1 == s1 - s2 && c.only2 == s2 - s1
    ensures c.common + c.only1 == s1 && c.common * c.only1 == {}
    ensures 50 <= c.score1 <= 100 && 50 <= c.score2 <= 100
    ensures c.strengths == [] <==> c.only1 == {} && c.only2 == {}
    ensures |c.strengths| <= 2 && |c.weaknesses| <= 1
    ensures |c.weaknesses| == 1 <==> s1 != {} && s2 != {}
    ensures c.score1 == SkillScore(s1, s2) && c.score2 == SkillScore(s2, s1)
    ensures c.strengths == SkillStrengths(s1 - s2, s2 - s1) && c.weaknesses == SkillWeaknesses(s1, s2)
  {
    SkillComparison(
      s1, s2, s1 * s2, s1 - s2, s2 - s1,
      SkillScore(s1, s2), SkillScore(s2, s1),
      SkillStrengths(s1 - s2, s2 - s1), SkillWeaknesses(s1, s2))
  }

  /** `_compare_skills`: the comparison of the two resumes' cleaned skill sets. */
  function CompareSkills(r1: Record, r2: Record): (c: SkillComparison)
    ensures c.common == c.skills1 * c.skills2 && c.only1 == c.skills1 - c.skills2 && c.only2 == c.skills2 - c.skills1
    ensures 50 <= c.score1 <= 100 && 50 <= c.score2 <= 100
    ensures r1 == r2 ==> c.only1 == {} && c.only2 == {}
    ensures c.skills1 == CleanSkills(Read(r1).skills) && c.skills2 == CleanSkills(Read(r2).skills)
    ensures c.score1 == SkillScore(c.skills1, c.skills2) && c.score2 == SkillScore(c.skills2, c.skills1)
  {
    CompareSkillSets(CleanSkills(Read(r1).skills), CleanSkills(Read(r2).skills))
  }

  /** `_compare_skills` is the set comparison of the two cleaned skill lists,
    * texts included. */
  lemma CompareSkillsIsSetComparison(r1: Record, r2: Record)
    ensures CompareSkills(r1, r2) == CompareSkillSets(CleanSkills(Read(r1).skills), CleanSkills(Read(r2).skills))
    ensures CompareSkills(r1, r2).strengths == SkillStrengths(CompareSkills(r1, r2).only1, CompareSkills(r1, r2).only2)
    ensures CompareSkills(r1, r2).weaknesses == SkillWeaknesses(CompareSkills(r1, r2).skills1, CompareSkills(r1, r2).skills2)
  {
  }

  lemma {:induction false} SubsetCardinality(a: set<String>, b: set<String>)
    requires a <= b
    ensures |a| <= |b|
  {
    assert b == a + (b - a);
  }

  /** A resume compared with itself has no unique skills, and its non-empty
    * skill set scores 100. */
  lemma CompareSkillsWithItself(r: Record)
    ensures CompareSkills(r, r).only1 == {} && CompareSkills(r, r).only2 == {}
    ensures CompareSkills(r, r).strengths == []
    ensures CleanSkills(Read(r).skills) != {} ==> CompareSkills(r, r).score1 == 100
  {
  }

  // ---------------------------------------------------------------------------
  // Experience

  /** End dates that mean "still there". */
  const OngoingMarkers: seq<String> := ["至今", "现在", "Present", "Current"]

  /** The year the source reads from a date: the first four characters of the
    * text before the first '-'. */
  function YearText(date: String): (t: String)
    ensures |t| <= 4
    ensures '-' !in t
    ensures '-' !in date ==> t == Take(date, 4)
  {
    Take(Split(date, '-')[0], 4)
  }

  /** `_calculate_exp_years`: whole years from the start year to the end year
    * (2025 when the job is ongoing), never negative; 0 when the start is empty
    * or a year does not parse. */
  function ExpYears(e: WorkEntry): (years: int)
    ensures years >= 0
    ensures e.startDate.GetOr("") == "" ==> years == 0
    ensures ParseInt(YearText(e.startDate.GetOr(""))).None? ==> years == 0
    ensures var start := ParseInt(YearText(e.startDate.GetOr("")));
            var end := e.endDate.GetOr("");
            start.Some? && (end in OngoingMarkers || end == "") ==>
              years == if 2025 - start.value > 0 then 2025 - start.value else 0
    ensures var start := ParseInt(YearText(e.startDate.GetOr("")));
            var end := e.endDate.GetOr("");
            start.Some? && end !in OngoingMarkers && end != "" ==>
              years == match ParseInt(YearText(end))
                       case None => 0
                       case Some(y) => if y - start.value > 0 then y - start.value else 0
  {
    var start := e.startDate.GetOr("");
    var end := e.endDate.GetOr("");
    if start == "" then 0
    else
      match ParseInt(YearText(start))
      case None => 0
      case Some(startYear) =>
        var endYear :=
          if end in OngoingMarkers || end == "" then Some(2025) else ParseInt(YearText(end));
        match endYear
        case None => 0
        case Some(y) => if y - startYear > 0 then y - startYear else 0
  }

  /** The year text the source reads is the same whether or not the date holds a '-'. */
  lemma YearTextBranchesAgree(date: String)
    ensures '-' !in date ==> YearText(date) == Take(date, 4)
    ensures '-' in date ==> YearText(date) == Take(date[..IndexOfChar(date, '-')], 4)
  {
  }

  function TotalYears(exps: seq<WorkEntry>): (total: int)
    ensures total >= 0
  {
    if exps == [] then 0 else TotalYears(exps[..|exps| - 1]) + ExpYears(exps[|exps| - 1])
  }

  function TotalAchievements(exps: seq<WorkEntry>): nat {
    if exps == [] then 0
    else TotalAchievements(exps[..|exps| - 1]) + |exps[|exps| - 1].achievements.GetOr([])|
  }

  /** The companies that are present and non-empty, in order. */
  function Companies(exps: seq<WorkEntry>): (r: seq<String>)
    ensures |r| <= |exps|
    ensures forall c :: c in r <==> c != "" && exists k :: 0 <= k < |exps| && exps[k].company == Some(c)
  {
    if exps == [] then []
    else
      var c := exps[|exps| - 1].company.GetOr("");
      Companies(exps[..|exps| - 1]) + (if c != "" then [c] else [])
  }

  /** Experience sub-score: 10 points a year and 5 an achievement, capped at 100. */
  function ExperienceScore(years: int, achievements: nat): (r: int)
    requires years >= 0
    ensures 0 <= r <= 100
    ensures r <= 10 * years + 5 * achievements
    ensures r == 100 || r == 10 * years + 5 * achievements
  {
    if 10 * years + 5 * achievements < 100 then 10 * years + 5 * achievements else 100
  }

  datatype ExperienceComparison = ExperienceComparison(
    experiences1: nat, experiences2: nat,
    years1: int, years2: int,
    companies1: seq<String>, companies2: seq<String>,
    achievements1: nat, achievements2: nat,
    score1: int, score2: int,
    strengths: seq<String>, weaknesses: seq<String>)

  /** `f"{n:.1f}"` for the integer year totals the source formats. */
  function YearsText(n: int): String {
    IntToString(n) + ".0"
  }

  /** `_compare_experience` */
  function CompareExperience(r1: Record, r2: Record): (c: ExperienceComparison)
    ensures c.years1 == TotalYears(Read(r1).workExperience) && c.years2 == TotalYears(Read(r2).workExperience)
    ensures c.achievements1 == TotalAchievements(Read(r1).workExperience)
    ensures c.achievements2 == TotalAchievements(Read(r2).workExperience)
    ensures c.experiences1 == |Read(r1).workExperience| && c.experiences2 == |Read(r2).workExperience|
    ensures c.companies1 == Companies(Read(r1).workExperience) && c.companies2 == Companies(Read(r2).workExperience)
    ensures 0 <= c.score1 <= 100 && 0 <= c.score2 <= 100
    ensures c.score1 == ExperienceScore(c.years1, c.achievements1)
    ensures c.score2 == ExperienceScore(c.years2, c.achievements2)
    ensures |c.strengths| == 2 && |c.weaknesses| == 2
    ensures c.weaknesses[0] == (if c.years1 < 3 then "经验年限较短" else "")
    ensures c.weaknesses[1] == (if c.achievements1 < 2 then "成果描述不足" else "")
  {
    var exp1 := Read(r1).workExperience;
    var exp2 := Read(r2).workExperience;
    var years1, years2 := TotalYears(exp1), TotalYears(exp2);
    var ach1, ach2 := TotalAchievements(exp1), TotalAchievements(exp2);
    ExperienceComparison(
      |exp1|, |exp2|, years1, years2, Companies(exp1), Companies(exp2), ach1, ach2,
      ExperienceScore(years1, ach1), ExperienceScore(years2, ach2),
      ["简历1: " + YearsText(years1) + "年经验, " + IntToString(ach1) + "个可量化成果",
       "简历2: " + YearsText(years2) + "年经验, " + IntToString(ach2) + "个可量化成果"],
      [if years1 < 3 then "经验年限较短" else "", if ach1 < 2 then "成果描述不足" else ""])
  }

  // ---------------------------------------------------------------------------
  // Education

  const TopSchools: seq<String> := ["清华", "北大", "复旦", "上交", "浙大", "哈佛", "MIT", "斯坦福"]

  /** The degree bonus as written: the test runs on the lowered degree, so the
    * mixed-case keywords 'PhD', 'Master' and 'MBA' can never match. */
  function DegreeBonus(degree: String): (b: nat)
    ensures b == 0 || b == 15 || b == 20
  {
    var d := Lower(degree);
    if Contains(d, "博士") || Contains(d, "PhD") then 20
    else if Contains(d, "硕士") || Contains(d, "Master") then 15
    else if Contains(d, "MBA") then 15
    else 0
  }

  /** The school bonus as written: 10 when the lowered school name contains a
    * listed keyword; 'MIT' can never match a lowered name. */
  function SchoolBonus(school: String): (b: nat)
    ensures b == 0 || b == 10
  {
    var s := Lower(school);
    if exists k | 0 <= k < |TopSchools| :: Contains(s, TopSchools[k]) then 10 else 0
  }

  /** One entry's bonus, with every keyword compared in the case of the
    * lowered text, as the keyword lists mean; `DegreeBonus` and `SchoolBonus`
    * are the tests as written. */
  function EntryBonus(e: EducationEntry): (b: nat)
    ensures b <= 30
  {
    IntendedDegreeBonus(e.degree.GetOr("")) + IntendedSchoolBonus(e.school.GetOr(""))
  }

  function SumBonus(education: seq<EducationEntry>): (total: nat)
    ensures total <= 30 * |education|
  {
    if education == [] then 0
    else SumBonus(education[..|education| - 1]) + EntryBonus(education[|education| - 1])
  }

  /** What `_edu_score` computes: 50 for no education, otherwise 60 plus the
    * bonuses, capped at 100. */
  function EducationScore(education: seq<EducationEntry>): (r: int)
    ensures 50 <= r <= 100
    ensures education == [] <==> r == 50
  {
    if education == [] then 50
    else if 60 + SumBonus(education) < 100 then 60 + SumBonus(education)
    else 100
  }

  /** `_edu_score` exactly as written, with the tests that run on lowered text
    * (`DegreeBonus`, `SchoolBonus`). */
  function SumBonusAsWritten(education: seq<EducationEntry>): (total: nat)
    ensures total <= 30 * |education|
  {
    if education == [] then 0
    else
      var e := education[|education| - 1];
      SumBonusAsWritten(education[..|education| - 1]) + DegreeBonus(e.degree.GetOr("")) + SchoolBonus(e.school.GetOr(""))
  }

  function EducationScoreAsWritten(education: seq<EducationEntry>): (r: int)
    ensures 50 <= r <= 100
    ensures education == [] <==> r == 50
  {
    if education == [] then 50
    else if 60 + SumBonusAsWritten(education) < 100 then 60 + SumBonusAsWritten(education)
    else 100
  }

  /** A single doctorate written `PhD` scores 60 as written and 80 with the
    * corrected tests. */
  lemma EducationScoreDiffersOnPhd(e: EducationEntry)
    requires e.degree == Some("PhD") && e.school.GetOr("") == ""
    ensures EducationScoreAsWritten([e]) == 60
    ensures EducationScore([e]) == 80
  {
    assert [e][..0] == [];
    EnglishPhdEarnsNothing();
    assert ContainsAt("PhD", "PhD", 0);
    IntendedDegreeBonusCountsPhd("PhD");
    assert Lower("") == "";
    assert forall k | 0 <= k < |TopSchools| :: |TopSchools[k]| > 0;
  }

  /** `_edu_score`, accumulating entry by entry (with the corrected tests). */
  method EduScore(education: seq<EducationEntry>) returns (score: int)
    ensures score == EducationScore(education)
  {
    if education == [] {
      return 50;
    }
    score := 60;
    for i := 0 to |education|
      invariant score == 60 + SumBonus(education[..i])
    {
      assert education[..i + 1][..i] == education[..i];
      score := score + EntryBonus(education[i]);
    }
    assert education[..|education|] == education;
    if score > 100 {
      score := 100;
    }
  }

  /** The degree tests that run on lowered text only ever see '博士' and '硕士'. */
  lemma DegreeBonusIgnoresEnglishTitles(degree: String)
    ensures DegreeBonus(degree) ==
      (if Contains(Lower(degree), "博士") then 20 else if Contains(Lower(degree), "硕士") then 15 else 0)
  {
    LowerNeverContainsUpper(degree, "PhD", 0);
    LowerNeverContainsUpper(degree, "Master", 0);
    LowerNeverContainsUpper(degree, "MBA", 0);
  }

  /** A PhD written in English earns no degree bonus. */
  lemma EnglishPhdEarnsNothing()
    ensures DegreeBonus("PhD") == 0
  {
    DegreeBonusIgnoresEnglishTitles("PhD");
    assert Lower("PhD") == "phd";
    MissingCharNotContained("phd", "博士", 0);
    MissingCharNotContained("phd", "硕士", 0);
  }

  /** 'MIT' earns no school bonus. */
  lemma MitEarnsNothing()
    ensures SchoolBonus("MIT") == 0
  {
    var s := Lower("MIT");
    assert s == "mit";
    forall k | 0 <= k < |TopSchools|
      ensures !Contains(s, TopSchools[k])
    {
      if k == 6 {
        LowerNeverContainsUpper("MIT", "MIT", 0);
      } else {
        assert TopSchools[k][0] !in s;
        MissingCharNotContained(s, TopSchools[k], 0);
      }
    }
  }

  /** The degree bonus with the keywords compared in the same case as the text. */
  function IntendedDegreeBonus(degree: String): (b: nat)
    ensures b == 0 || b == 15 || b == 20
  {
    var d := Lower(degree);
    if Contains(d, "博士") || Contains(d, Lower("PhD")) then 20
    else if Contains(d, "硕士") || Contains(d, Lower("Master")) || Contains(d, Lower("MBA")) then 15
    else 0
  }

  /** With case-consistent keywords an English doctorate gets the doctorate bonus. */
  lemma IntendedDegreeBonusCountsPhd(degree: String)
    requires Contains(degree, "PhD")
    ensures IntendedDegreeBonus(degree) == 20
  {
    LowerKeepsContains(degree, "PhD");
  }

  /** The school bonus with the keywords compared in the same case as the name. */
  function IntendedSchoolBonus(school: String): (b: nat)
    ensures b == 0 || b == 10
  {
    var s := Lower(school);
    if exists k | 0 <= k < |TopSchools| :: Contains(s, Lower(TopSchools[k])) then 10 else 0
  }

  /** With case-consistent keywords a school named `MIT` gets the school bonus. */
  lemma IntendedSchoolBonusCountsMit(school: String)
    requires Contains(school, "MIT")
    ensures IntendedSchoolBonus(school) == 10
  {
    LowerKeepsContains(school, "MIT");
    assert TopSchools[6] == "MIT";
  }

  datatype EducationComparison = EducationComparison(
    schools1: seq<String>, schools2: seq<String>,
    degrees1: seq<String>, degrees2: seq<String>,
    score1: int, score2: int,
    strengths: seq<String>, weaknesses: seq<String>)

  function Schools(education: seq<EducationEntry>): (r: seq<String>)
    ensures forall s :: s in r <==> s != "" && exists k :: 0 <= k < |education| && education[k].school == Some(s)
  {
    if education == [] then []
    else
      var s := education[|education| - 1].school.GetOr("");
      Schools(education[..|education| - 1]) + (if s != "" then [s] else [])
  }

  function Degrees(education: seq<EducationEntry>): (r: seq<String>)
    ensures forall d :: d in r <==> d != "" && exists k :: 0 <= k < |education| && education[k].degree == Some(d)
  {
    if education == [] then []
    else
      var d := education[|education| - 1].degree.GetOr("");
      Degrees(education[..|education| - 1]) + (if d != "" then [d] else [])
  }

  function FirstOrUndisclosed(xs: seq<String>): String {
    if xs != [] then xs[0] else "未披露"
  }

  /** A resume's education strength: `tag` followed by its first listed school
    * and its first listed degree (`未披露` when none), or `""` without
    * education. */
  function EducationStrength(tag: String, education: seq<EducationEntry>): (r: String)
    ensures r == "" <==> education == []
    ensures education != [] ==> |tag| <= |r| && r[..|tag|] == tag
  {
    if education != [] then tag + FirstOrUndisclosed(Schools(education)) + " - " + FirstOrUndisclosed(Degrees(education))
    else ""
  }

  /** `_compare_education` */
  method CompareEducation(r1: Record, r2: Record) returns (c: EducationComparison)
    ensures c.score1 == EducationScore(Read(r1).education) && c.score2 == EducationScore(Read(r2).education)
    ensures c.schools1 == Schools(Read(r1).education) && c.schools2 == Schools(Read(r2).education)
    ensures c.degrees1 == Degrees(Read(r1).education) && c.degrees2 == Degrees(Read(r2).education)
    ensures c.strengths == [EducationStrength("简历1: ", Read(r1).education), EducationStrength("简历2: ", Read(r2).education)]
    ensures |c.strengths| == 2
    ensures c.strengths[0] == "" <==> Read(r1).education == []
    ensures c.strengths[1] == "" <==> Read(r2).education == []
    ensures c.weaknesses == (if Read(r1).education == [] || Read(r2).education == [] then ["教育信息不完整"] else [])
  {
    var edu1 := Read(r1).education;
    var edu2 := Read(r2).education;
    var schools1, schools2 := Schools(edu1), Schools(edu2);
    var degrees1, degrees2 := Degrees(edu1), Degrees(edu2);
    var score1 := EduScore(edu1);
    var score2 := EduScore(edu2);
    var strength1 := EducationStrength("简历1: ", edu1);
    var strength2 := EducationStrength("简历2: ", edu2);
    c := EducationComparison(
      schools1, schools2, degrees1, degrees2, score1, score2,
      [strength1, strength2],
      if edu1 == [] || edu2 == [] then ["教育信息不完整"] else []);
  }

  // ---------------------------------------------------------------------------
  // Overall score

  /** `_calculate_overall_score`: the mean of the two resumes' weighted scores
    * (skills 30%, experience 50%, education 20%), rounded; in twentieths,
    * (w1 + w2) / 2 = (3 sk1 + 5 ex1 + 2 ed1 + 3 sk2 + 5 ex2 + 2 ed2) / 20. */
  function OverallScore(skill1: int, exp1: int, edu1: int, skill2: int, exp2: int, edu2: int): (r: int)
    ensures var n := 3 * skill1 + 5 * exp1 + 2 * edu1 + 3 * skill2 + 5 * exp2 + 2 * edu2;
      -10 <= 20 * r - n <= 10 && ((20 * r - n == 10 || n - 20 * r == 10) ==> r % 2 == 0)
  {
    RoundDiv(3 * skill1 + 5 * exp1 + 2 * edu1 + 3 * skill2 + 5 * exp2 + 2 * edu2, 20)
  }

  /** Sub-scores within [0, 100] give an overall score within [0, 100], and the
    * overall score does not depend on which resume comes first. */
  lemma OverallScoreBounds(skill1: int, exp1: int, edu1: int, skill2: int, exp2: int, edu2: int)
    requires 0 <= skill1 <= 100 && 0 <= exp1 <= 100 && 0 <= edu1 <= 100
    requires 0 <= skill2 <= 100 && 0 <= exp2 <= 100 && 0 <= edu2 <= 100
    ensures 0 <= OverallScore(skill1, exp1, edu1, skill2, exp2, edu2) <= 100
    ensures OverallScore(skill1, exp1, edu1, skill2, exp2, edu2) == OverallScore(skill2, exp2, edu2, skill1, exp1, edu1)
  {
    var n := 3 * skill1 + 5 * exp1 + 2 * edu1 + 3 * skill2 + 5 * exp2 + 2 * edu2;
    RoundDivMonotone(0, n, 20);
    RoundDivMonotone(n, 2000, 20);
    RoundDivExact(0, 20);
    RoundDivExact(100, 20);
  }

  /** Two resumes with the same sub-scores get their common weighted score,
    * rounded half to even. */
  lemma OverallScoreOfTwins(skill: int, exp: int, edu: int)
    ensures OverallScore(skill, exp, edu, skill, exp, edu) == RoundDiv(3 * skill + 5 * exp + 2 * edu, 10)
  {
  }


  // ---------------------------------------------------------------------------
  // Recommendations

  const LanguageSkills: seq<String> :=
    ["Python", "Java", "JavaScript", "Go", "C++", "Rust", "TypeScript", "PHP", "Ruby", "Swift", "Kotlin"]
  const FrontendSkills: seq<String> :=
    ["React", "Vue", "Angular", "Next.js", "Svelte", "jQuery", "Bootstrap", "Tailwind"]
  const BackendSkills: seq<String> :=
    ["Django", "Flask", "FastAPI", "Spring Boot", "Express", "NestJS", "Gin", "Laravel"]
  const DatabaseSkills: seq<String> :=
    ["MySQL", "PostgreSQL", "MongoDB", "Redis", "Elasticsearch", "Oracle", "SQL Server"]
  const CloudSkills: seq<String> :=
    ["AWS", "Azure", "GCP", "Docker", "Kubernetes", "Jenkins", "GitLab CI", "Terraform"]
  const DataScienceSkills: seq<String> :=
    ["Pandas", "NumPy", "Spark", "Hadoop", "TensorFlow", "PyTorch", "Scikit-learn"]

  /** `SKILL_WEIGHTS`, category by category, in the dict's order. */
  const SkillWeights: seq<(String, seq<String>)> := [
    ("编程语言", LanguageSkills), ("前端框架", FrontendSkills), ("后端框架", BackendSkills),
    ("数据库", DatabaseSkills), ("云和DevOps", CloudSkills), ("数据科学", DataScienceSkills)]

  /** Every skill of `SKILL_WEIGHTS`, category after category. */
  const Vocabulary: seq<String> :=
    LanguageSkills + FrontendSkills + BackendSkills + DatabaseSkills + CloudSkills + DataScienceSkills

  /** All skills of the given categories, category after category. */
  function Flatten(categories: seq<(String, seq<String>)>): (r: seq<String>)
    ensures forall k :: k in r <==> exists c :: c in categories && k in c.1
  {
    if categories == [] then []
    else
      var init := categories[..|categories| - 1];
      var last := categories[|categories| - 1];
      assert categories == init + [last];
      Flatten(init) + last.1
  }

  lemma VocabularyFlattensWeights()
    ensures Flatten(SkillWeights) == Vocabulary
  {
    FlattenSix(SkillWeights[0], SkillWeights[1], SkillWeights[2], SkillWeights[3], SkillWeights[4], SkillWeights[5]);
    assert SkillWeights == [SkillWeights[0], SkillWeights[1], SkillWeights[2], SkillWeights[3], SkillWeights[4], SkillWeights[5]];
  }

  /** Six categories flatten to their skill lists, one after the other. */
  lemma FlattenSix(c0: (String, seq<String>), c1: (String, seq<String>), c2: (String, seq<String>),
                   c3: (String, seq<String>), c4: (String, seq<String>), c5: (String, seq<String>))
    ensures Flatten([c0, c1, c2, c3, c4, c5]) == c0.1 + c1.1 + c2.1 + c3.1 + c4.1 + c5.1
  {
    var w := [c0, c1, c2, c3, c4, c5];
    assert w[..0] == [];
    FlattenSnoc(w, 0);
    FlattenSnoc(w, 1);
    FlattenSnoc(w, 2);
    FlattenSnoc(w, 3);
    FlattenSnoc(w, 4);
    FlattenSnoc(w, 5);
    assert w[..6] == w;
  }

  lemma FlattenSnoc(categories: seq<(String, seq<String>)>, i: nat)
    requires i < |categories|
    ensures Flatten(categories[..i + 1]) == Flatten(categories[..i]) + categories[i].1
  {
    assert categories[..i + 1][..i] == categories[..i];
  }

  /** The vocabulary skills the job description mentions, ignoring ASCII case. */
  function JdSkillSet(jd: String): (r: set<String>)
    ensures forall k :: k in r <==> k in Vocabulary && FileParser.Mentions(jd, k)
  {
    set k | k in Vocabulary && FileParser.Mentions(jd, k)
  }

  /** `ResumeComparator`: its one field is the union of every category's skills. */
  class ResumeComparator {
    var allSkills: set<String>

    constructor ()
      ensures allSkills == set k | k in Vocabulary
    {
      var skills: set<String> := {};
      for i := 0 to |SkillWeights|
        invariant skills == set k | k in Flatten(SkillWeights[..i])
      {
        assert SkillWeights[..i + 1][..i] == SkillWeights[..i];
        skills := skills + set k | k in SkillWeights[i].1;
      }
      assert SkillWeights[..|SkillWeights|] == SkillWeights;
      VocabularyFlattensWeights();
      allSkills := skills;
    }
  }

  /** `_extract_jd_skills`, sweeping the categories in order. */
  method ExtractJdSkills(jd: String) returns (skills: set<String>)
    ensures skills == JdSkillSet(jd)
  {
    skills := MentionedIn(jd, SkillWeights);
    VocabularyFlattensWeights();
  }

  /** The loop of `_extract_jd_skills` over any list of categories: the
    * skills of those categories that the description mentions. */
  method MentionedIn(jd: String, categories: seq<(String, seq<String>)>) returns (skills: set<String>)
    ensures forall k :: k in skills <==> k in Flatten(categories) && FileParser.Mentions(jd, k)
  {
    skills := {};
    var lowered := Lower(jd);
    for i := 0 to |categories|
      invariant forall k :: k in skills <==> k in Flatten(categories[..i]) && FileParser.Mentions(jd, k)
    {
      var list := categories[i].1;
      for j := 0 to |list|
        invariant forall k :: k in skills <==>
                    (k in Flatten(categories[..i]) || k in list[..j]) && FileParser.Mentions(jd, k)
      {
        if Contains(lowered, Lower(list[j])) {
          skills := skills + {list[j]};
        }
        assert list[..j + 1] == list[..j] + [list[j]];
      }
      assert list[..|list|] == list;
      assert categories[..i + 1][..i] == categories[..i];
      assert Flatten(categories[..i + 1]) == Flatten(categories[..i]) + list;
    }
    assert categories[..|categories|] == categories;
  }

  const FallbackRecommendation := "两份简历质量相近，建议根据目标岗位JD进行针对性调整"
  const TenureRecommendation := "简历1经验年限较短，建议突出项目经验和技能深度"
  const AchievementRecommendation := "建议增加可量化的成果描述，如'提升效率30%'等"

  /** Every recommendation other than the fallback opens with one of these
    * characters; the fallback opens with '两'. */
  predicate IsAdvice(item: String) {
    |item| > 0 && item[0] in {'建', '针', '简'}
  }

  function When(condition: bool, item: String): (r: seq<String>)
    requires IsAdvice(item)
    ensures forall x :: x in r ==> IsAdvice(x)
    ensures |r| <= 1 && (r == [] <==> !condition)
  {
    if condition then [item] else []
  }

  /** "Resume 2 could add" / "resume 1 could add", up to three skills each. */
  function SkillAdvice(only1: seq<String>, only2: seq<String>): (r: seq<String>)
    ensures forall x :: x in r ==> IsAdvice(x)
    ensures |r| <= 2 && (r == [] <==> only1 == [] && only2 == [])
  {
    When(only1 != [], "建议简历2补充: " + Join(", ", Take(only1, 3)))
    + When(only2 != [], "建议简历1补充: " + Join(", ", Take(only2, 3)))
  }

  /** Shorter tenure and too few achievements, both judged on resume 1. */
  function ExperienceAdvice(ec: ExperienceComparison): (r: seq<String>)
    ensures forall x :: x in r ==> IsAdvice(x)
    ensures |r| <= 2 && (r == [] <==> ec.years1 >= ec.years2 && ec.achievements1 >= 2)
  {
    When(ec.years1 < ec.years2, TenureRecommendation) + When(ec.achievements1 < 2, AchievementRecommendation)
  }

  /** The job-description skills a resume's raw skill list lacks. */
  function MissingJdSkills(jdSkills: set<String>, skills: seq<String>): (r: set<String>)
    ensures forall k :: k in r <==> k in jdSkills && k !in skills
  {
    set k | k in jdSkills && k !in skills
  }

  /** Advice against the job description: for each resume, up to three of the
    * description's skills its raw skill list lacks; nothing for an empty description. */
  function JdAdvice(jd: String, skills1: seq<String>, skills2: seq<String>): (r: seq<String>)
    ensures forall x :: x in r ==> IsAdvice(x)
    ensures |r| <= 2
    ensures jd == "" ==> r == []
    ensures jd != "" ==>
      (r == [] <==> MissingJdSkills(JdSkillSet(jd), skills1) == {} && MissingJdSkills(JdSkillSet(jd), skills2) == {})
  {
    if jd == "" then []
    else
      var jdSkills := JdSkillSet(jd);
      var missing1 := MissingJdSkills(jdSkills, skills1);
      var missing2 := MissingJdSkills(jdSkills, skills2);
      When(missing1 != {}, "针对JD，简历1建议补充: " + Join(", ", Take(ListIn(missing1, Vocabulary), 3)))
      + When(missing2 != {}, "针对JD，简历2建议补充: " + Join(", ", Take(ListIn(missing2, Vocabulary), 3)))
  }

  /** The recommendations before the fallback and the cap, in the source's order. */
  function RecommendationItems(r1: Record, r2: Record, sc: SkillComparison, ec: ExperienceComparison,
                               jd: String): (items: seq<String>)
    ensures |items| <= 6
    ensures forall x :: x in items ==> IsAdvice(x)
  {
    SkillAdvice(ListIn(sc.only1, StrippedNonBlank(Read(r1).skills)), ListIn(sc.only2, StrippedNonBlank(Read(r2).skills)))
    + ExperienceAdvice(ec)
    + JdAdvice(jd, Read(r1).skills, Read(r2).skills)
  }

  /** The fallback when nothing applies, otherwise the first five items. */
  function Finish(items: seq<String>): (recs: seq<String>)
    requires forall x :: x in items ==> IsAdvice(x)
    ensures 1 <= |recs| <= 5
    ensures recs == [FallbackRecommendation] <==> items == []
    ensures items != [] ==> |recs| <= |items| && recs == items[..|recs|]
  {
    if items == [] then [FallbackRecommendation]
    else
      var recs := Take(items, 5);
      assert recs[0] == items[0] && IsAdvice(items[0]);
      assert recs[0][0] != FallbackRecommendation[0];
      recs
  }

  /** What `_generate_recommendations` returns, given the job description's skill set. */
  function Recommendations(r1: Record, r2: Record, sc: SkillComparison, ec: ExperienceComparison,
                           jd: String): (recs: seq<String>)
    ensures 1 <= |recs| <= 5
    ensures recs == [FallbackRecommendation] <==> RecommendationItems(r1, r2, sc, ec, jd) == []
  {
    Finish(RecommendationItems(r1, r2, sc, ec, jd))
  }

  /** The fallback appears exactly when no other recommendation applies. For
    * comparisons built from the resumes, the unique-skill advice is absent
    * exactly when the two cleaned skill sets are equal. */
  lemma FallbackOnlyWhenNothingElse(r1: Record, r2: Record, jd: String)
    ensures var sc := CompareSkills(r1, r2);
            var ec := CompareExperience(r1, r2);
            Recommendations(r1, r2, sc, ec, jd) == [FallbackRecommendation] <==>
              sc.skills1 == sc.skills2 && ec.years1 >= ec.years2 && ec.achievements1 >= 2
              && (jd == "" || (JdSkillSet(jd) <= (set s | s in Read(r1).skills) && JdSkillSet(jd) <= (set s | s in Read(r2).skills)))
  {
    var order1, order2 := StrippedNonBlank(Read(r1).skills), StrippedNonBlank(Read(r2).skills);
    var s1, s2 := CleanSkills(Read(r1).skills), CleanSkills(Read(r2).skills);
    UniqueSkillAdvice(s1, s2, order1, order2);
    if jd != "" {
      MissingEmptyIffCovered(JdSkillSet(jd), Read(r1).skills);
      MissingEmptyIffCovered(JdSkillSet(jd), Read(r2).skills);
    }
  }

  /** No unique-skill advice exactly when the two skill sets are equal. */
  lemma UniqueSkillAdvice(s1: set<String>, s2: set<String>, order1: seq<String>, order2: seq<String>)
    requires forall t :: t in s1 ==> t in order1
    requires forall t :: t in s2 ==> t in order2
    ensures SkillAdvice(ListIn(s1 - s2, order1), ListIn(s2 - s1, order2)) == [] <==> s1 == s2
  {
    OnlyListEmptiness(s1 - s2, order1);
    OnlyListEmptiness(s2 - s1, order2);
  }

  lemma OnlyListEmptiness(s: set<String>, order: seq<String>)
    requires forall t :: t in s ==> t in order
    ensures ListIn(s, order) == [] <==> s == {}
  {
    var r := ListIn(s, order);
    if s != {} {
      var t :| t in s;
      assert t in r;
    }
  }

  lemma MissingEmptyIffCovered(jdSkills: set<String>, skills: seq<String>)
    ensures MissingJdSkills(jdSkills, skills) == {} <==> jdSkills <= set s | s in skills
  {
    if MissingJdSkills(jdSkills, skills) == {} {
      forall k | k in jdSkills
        ensures k in skills
      {
        assert k !in MissingJdSkills(jdSkills, skills);
      }
    }
  }

  /** `_generate_recommendations`: the unique-skill lists in the order the
    * resumes list them, then the appends. */
  method GenerateRecommendations(r1: Record, r2: Record, sc: SkillComparison, ec: ExperienceComparison,
                                 jd: String) returns (recs: seq<String>)
    ensures recs == Recommendations(r1, r2, sc, ec, jd)
  {
    var only1 := ListIn(sc.only1, StrippedNonBlank(Read(r1).skills));
    var only2 := ListIn(sc.only2, StrippedNonBlank(Read(r2).skills));
    recs := Advise(only1, only2, ec, jd, Read(r1).skills, Read(r2).skills);
  }

  /** The appends of `_generate_recommendations`, in the source's order, then
    * the fallback and the cap. */
  method Advise(only1: seq<String>, only2: seq<String>, ec: ExperienceComparison, jd: String,
                skills1: seq<String>, skills2: seq<String>) returns (recs: seq<String>)
    ensures recs == Finish(SkillAdvice(only1, only2) + ExperienceAdvice(ec) + JdAdvice(jd, skills1, skills2))
  {
    recs := SkillAndExperienceAdvice(only1, only2, ec);
    recs := AppendJdAdvice(recs, jd, skills1, skills2);
    ghost var items := recs;
    assert items == SkillAdvice(only1, only2) + ExperienceAdvice(ec) + JdAdvice(jd, skills1, skills2);
    if recs == [] {
      recs := [FallbackRecommendation];
    }
    recs := Take(recs, 5);
  }

  /** The skill and experience steps of `_generate_recommendations`. */
  method SkillAndExperienceAdvice(only1: seq<String>, only2: seq<String>, ec: ExperienceComparison)
    returns (recs: seq<String>)
    ensures recs == SkillAdvice(only1, only2) + ExperienceAdvice(ec)
  {
    recs := [];
    if only1 != [] {
      recs := recs + ["建议简历2补充: " + Join(", ", Take(only1, 3))];
    }
    if only2 != [] {
      recs := recs + ["建议简历1补充: " + Join(", ", Take(only2, 3))];
    }
    if ec.years1 < ec.years2 {
      recs := recs + [TenureRecommendation];
    }
    if ec.achievements1 < 2 {
      recs := recs + [AchievementRecommendation];
    }
  }

  /** The job-description step of `_generate_recommendations`: extract the
    * description's skills and append a line per resume that lacks some. */
  method AppendJdAdvice(recs: seq<String>, jd: String, skills1: seq<String>, skills2: seq<String>)
    returns (out: seq<String>)
    ensures out == recs + JdAdvice(jd, skills1, skills2)
  {
    out := recs;
    if jd != "" {
      var jdSkills := ExtractJdSkills(jd);
      var missing1 := MissingJdSkills(jdSkills, skills1);
      var missing2 := MissingJdSkills(jdSkills, skills2);
      var line1 := "针对JD，简历1建议补充: " + Join(", ", Take(ListIn(missing1, Vocabulary), 3));
      var line2 := "针对JD，简历2建议补充: " + Join(", ", Take(ListIn(missing2, Vocabulary), 3));
      if missing1 != {} {
        out := out + [line1];
      }
      if missing2 != {} {
        out := out + [line2];
      }
      assert out == recs + (When(missing1 != {}, line1) + When(missing2 != {}, line2));
    }
  }

  // ---------------------------------------------------------------------------
  // The comparison

  datatype ComparisonResult = ComparisonResult(
    overallScore: int,
    skills: SkillComparison,
    experience: ExperienceComparison,
    education: EducationComparison,
    recommendations: seq<String>,
    strengths: seq<String>,
    weaknesses: seq<String>)

  /** `compare`: the three comparisons, their strengths and weaknesses
    * concatenated skill, experience, education and cut to five each, the
    * recommendations and the overall score. */
  method Compare(r1: Record, r2: Record, jd: String) returns (result: ComparisonResult)
    ensures result.skills == CompareSkills(r1, r2) && result.experience == CompareExperience(r1, r2)
    ensures result.strengths ==
      Take(result.skills.strengths + result.experience.strengths + result.education.strengths, 5)
    ensures result.weaknesses ==
      Take(result.skills.weaknesses + result.experience.weaknesses + result.education.weaknesses, 5)
    ensures result.recommendations == Recommendations(r1, r2, result.skills, result.experience, jd)
    ensures result.education.score1 == EducationScore(Read(r1).education)
    ensures result.education.score2 == EducationScore(Read(r2).education)
    ensures result.education.schools1 == Schools(Read(r1).education) && result.education.schools2 == Schools(Read(r2).education)
    ensures result.education.degrees1 == Degrees(Read(r1).education) && result.education.degrees2 == Degrees(Read(r2).education)
    ensures result.education.strengths ==
      [EducationStrength("简历1: ", Read(r1).education), EducationStrength("简历2: ", Read(r2).education)]
    ensures |result.education.strengths| == 2
    ensures result.education.strengths[0] == "" <==> Read(r1).education == []
    ensures result.education.strengths[1] == "" <==> Read(r2).education == []
    ensures result.education.weaknesses ==
      (if Read(r1).education == [] || Read(r2).education == [] then ["教育信息不完整"] else [])
    ensures result.overallScore == OverallScore(result.skills.score1, result.experience.score1, result.education.score1,
                                                result.skills.score2, result.experience.score2, result.education.score2)
    ensures 0 <= result.overallScore <= 100
  {
    var sc := CompareSkills(r1, r2);
    var ec := CompareExperience(r1, r2);
    var edc := CompareEducation(r1, r2);
    var recs := GenerateRecommendations(r1, r2, sc, ec, jd);
    OverallScoreBounds(sc.score1, ec.score1, edc.score1, sc.score2, ec.score2, edc.score2);
    var overall := OverallScore(sc.score1, ec.score1, edc.score1, sc.score2, ec.score2, edc.score2);
    result := ComparisonResult(
      overall, sc, ec, edc, recs,
      Take(sc.strengths + ec.strengths + edc.strengths, 5),
      Take(sc.weaknesses + ec.weaknesses + edc.weaknesses, 5));
  }
}
