/** `utils/analyzer.py`: the résumé analyzer that combines the local
  * extraction with the AI client, and the guarantee that an interview
  * question set always holds at least twelve questions. */
module Analyzer {
  import opened Wrappers
  import opened Text
  import opened Json
  import opened Config
  import opened FileParser
  import opened AiClient
  import opened QuestionBank

  /** `len(v)` of a JSON value, where Python has one. */
  function Len(v: Json): Option<nat> {
    match v
    case JStr(s) => Some(|s|)
    case JArr(items) => Some(|items|)
    case JObj(fields) => Some(|fields|)
    case _ => None
  }

  /** The guard after `generate_interview_questions`: a result that is not an
    * object makes `.get` raise; a missing, empty or shorter-than-twelve
    * `interview_questions` is replaced by the bank; a truthy value without a
    * length makes `len` raise. */
  function CheckedQuestions(result: Json): (r: Result<Json, Failure>)
    ensures !result.JObj? ==> r == Err(AttributeError)
  {
    if !result.JObj? then Err(AttributeError)
    else
      var questions := if "interview_questions" in result.fields then result.fields["interview_questions"] else JArr([]);
      if !Truthy(questions) then Ok(JObj(result.fields["interview_questions" := DefaultInterviewQuestions()]))
      else match Len(questions)
        case None => Err(TypeError)
        case Some(n) =>
          if n < 12 then Ok(JObj(result.fields["interview_questions" := DefaultInterviewQuestions()]))
          else Ok(result)
  }

  /** A checked result always has at least twelve questions (by `len`), and
    * every other key of the answer is kept as it was. */
  lemma CheckedQuestionsAtLeastTwelve(result: Json)
    requires CheckedQuestions(result).Ok?
    ensures var r := CheckedQuestions(result).value;
      && r.JObj? && result.JObj?
      && "interview_questions" in r.fields
      && Len(r.fields["interview_questions"]).Some?
      && Len(r.fields["interview_questions"]).value >= 12
      && r.fields.Keys == result.fields.Keys + {"interview_questions"}
      && forall key :: key in result.fields && key != "interview_questions" ==> r.fields[key] == result.fields[key]
  {
    DefaultQuestionBankShape();
  }

  /** The answer is kept unchanged exactly when it already has at least twelve
    * questions; otherwise the questions are the bank. */
  lemma CheckedQuestionsKeepsLongAnswers(result: Json)
    requires result.JObj?
    ensures var q := result.fields;
      CheckedQuestions(result) == Ok(result) <==>
        "interview_questions" in q && Len(q["interview_questions"]).Some? && Len(q["interview_questions"]).value >= 12
  {
    DefaultQuestionBankShape();
  }

  /** Checking twice is checking once. */
  lemma CheckedQuestionsIdempotent(result: Json)
    requires CheckedQuestions(result).Ok?
    ensures CheckedQuestions(CheckedQuestions(result).value) == CheckedQuestions(result)
  {
    CheckedQuestionsAtLeastTwelve(result);
    var r := CheckedQuestions(result).value;
    CheckedQuestionsKeepsLongAnswers(r);
  }

  /** Without an answer from the model the client's one-question default is
    * replaced, so the pages get the thirteen questions of the bank. */
  lemma FailedReplyGivesBank(reply: Reply, decode: String -> Option<Json>)
    requires !Answered(reply)
    ensures var o := Outcome(Answer(reply), decode, DefaultPayload(InterviewQuestions));
      o.Ok? && CheckedQuestions(o.value) == Ok(JObj(map["interview_questions" := DefaultInterviewQuestions()]))
  {
    FailedReplyGivesDefault(InterviewQuestions, reply, decode);
    DefaultQuestionsHoldOne();
    var d := DefaultPayload(InterviewQuestions);
    assert d.fields["interview_questions" := DefaultInterviewQuestions()] == map["interview_questions" := DefaultInterviewQuestions()];
  }

  /** The question set `generate_interview_questions` returns for the
    * client's outcome; a raised exception passes through. */
  function GuardedQuestions(outcome: Result<Json, Failure>): Result<Json, Failure> {
    match outcome
    case Err(e) => Err(e)
    case Ok(v) => CheckedQuestions(v)
  }

  /** The posts `suggest_job_positions` proposes for the skills. */
  function SuggestedPositions(skills: seq<String>): (r: seq<Suggestion>)
    ensures |r| <= 5 && SortedByScore(r)
    ensures forall p :: p in r ==> exists c :: c in JobCategories && Qualifies(skills, c) && p == SuggestionFor(skills, c)
  {
    CategoryListsNonEmpty();
    RankedQualifying(skills);
    Take(SortByScore(Candidates(skills, JobCategories)), 5)
  }

  lemma RankedQualifying(skills: seq<String>)
    requires NonEmptyLists(JobCategories)
    ensures SortedByScore(Take(SortByScore(Candidates(skills, JobCategories)), 5))
    ensures forall p :: p in Take(SortByScore(Candidates(skills, JobCategories)), 5) ==>
      exists c :: c in JobCategories && Qualifies(skills, c) && p == SuggestionFor(skills, c)
  {
    SortByScoreSorted(Candidates(skills, JobCategories));
    forall p | p in Take(SortByScore(Candidates(skills, JobCategories)), 5)
      ensures exists c :: c in JobCategories && Qualifies(skills, c) && p == SuggestionFor(skills, c)
    {
      SuggestionsQualify(skills, JobCategories, p);
    }
  }

  /** What `analyze` returns. */
  datatype Analysis = Analysis(
    contactInfo: ContactInfo, skills: seq<String>, recommendedPositions: seq<Suggestion>, analysis: Json)

  /** `ResumeAnalyzer`: holds the shared AI client. */
  class ResumeAnalyzer {
    const ai: Client

    /** `ResumeAnalyzer()`: takes the client `get_ai_client` hands out. */
    constructor (slot: ClientSlot, config: ApiConfig)
      requires slot.Valid()
      modifies slot, slot.stats, if slot.client.Some? then {slot.client.value} else {}
      ensures slot.Valid() && slot.client == Some(ai) && ai.stats == slot.stats
      ensures ai.apiConfig == config && ai.HeadersMatch()
    {
      var c := slot.GetAiClient(config);
      ai := c;
    }

    /** `analyze`: the skills, contact details and suggested posts found
      * locally, with the model's analysis (or its default). */
    method Analyze(resumeText: String, reply: Reply, now: String, decode: String -> Option<Json>)
      returns (r: Result<Analysis, Failure>)
      modifies ai.stats
      ensures ai.stats.Snapshot() == Recorded(old(ai.stats.Snapshot()), reply, now)
      ensures var o := Outcome(Answer(reply), decode, DefaultPayload(AnalyzeResume));
        && (r.Err? <==> o.Err?)
        && (r.Err? ==> r.error == o.error)
        && (r.Ok? ==> r.value.analysis == o.value)
      ensures r.Ok? ==> r.value.contactInfo == ExtractContactInfo(resumeText)
      ensures r.Ok? ==> NoDuplicates(r.value.skills) && forall k :: k in r.value.skills <==> k in SkillSet(resumeText)
      ensures r.Ok? ==> r.value.recommendedPositions == SuggestedPositions(r.value.skills)
    {
      var skills := ExtractSkills(resumeText);
      var _, analysis := ai.Ask(AnalyzeResume, resumeText, "", reply, now, decode);
      if analysis.Err? {
        return Err(analysis.error);
      }
      var contact := ExtractContactInfo(resumeText);
      var positions := SuggestJobPositions(skills, []);
      r := Ok(Analysis(contact, skills, positions, analysis.value));
    }

    /** `match_with_jd` */
    method MatchWithJd(resumeText: String, jdText: String, reply: Reply, now: String, decode: String -> Option<Json>)
      returns (r: Result<Json, Failure>)
      modifies ai.stats
      ensures ai.stats.Snapshot() == Recorded(old(ai.stats.Snapshot()), reply, now)
      ensures r == Outcome(Answer(reply), decode, DefaultPayload(MatchJd))
    {
      var _, outcome := ai.Ask(MatchJd, resumeText, jdText, reply, now, decode);
      r := outcome;
    }

    /** `generate_interview_questions`: the model's questions, replaced by the
      * bank when there are fewer than twelve. */
    method GenerateInterviewQuestions(resumeText: String, jdText: String, reply: Reply, now: String, decode: String -> Option<Json>)
      returns (r: Result<Json, Failure>)
      modifies ai.stats
      ensures ai.stats.Snapshot() == Recorded(old(ai.stats.Snapshot()), reply, now)
      ensures r == GuardedQuestions(Outcome(Answer(reply), decode, DefaultPayload(InterviewQuestions)))
      ensures r.Ok? ==>
        && r.value.JObj? && "interview_questions" in r.value.fields
        && Len(r.value.fields["interview_questions"]).Some? && Len(r.value.fields["interview_questions"]).value >= 12
    {
      var _, outcome := ai.Ask(InterviewQuestions, resumeText, jdText, reply, now, decode);
      if outcome.Err? {
        return Err(outcome.error);
      }
      r := CheckedQuestions(outcome.value);
      if r.Ok? {
        CheckedQuestionsAtLeastTwelve(outcome.value);
      }
    }

    /** `generate_self_introduction` */
    method GenerateSelfIntroduction(resumeText: String, jdText: String, reply: Reply, now: String, decode: String -> Option<Json>)
      returns (r: Result<Json, Failure>)
      modifies ai.stats
      ensures ai.stats.Snapshot() == Recorded(old(ai.stats.Snapshot()), reply, now)
      ensures r == Outcome(Answer(reply), decode, DefaultPayload(SelfIntroduction))
    {
      var _, outcome := ai.Ask(SelfIntroduction, resumeText, jdText, reply, now, decode);
      r := outcome;
    }
  }
}
