/** The LLM gateway (`utils/ai_client.py`): the `api_stats` bookkeeping of
  * every chat call, the client's request settings, the four use cases with
  * their prompt truncation and fixed fallbacks, and the defensive parsing of
  * a reply. The HTTP exchange is an input (`Reply`), JSON decoding is the
  * partial function `decode`, and the clock is the `now` argument. */
module AiClient {
  import opened Wrappers
  import opened Text
  import opened Json
  import opened Config

  /** The exceptions that escape a use case. */
  datatype Failure = TypeError | AttributeError

  // ---------------------------------------------------------------------
  // `api_stats`

  /** The contents of the module-level `api_stats` dictionary. */
  datatype Stats = Stats(
    totalCalls: int, totalPromptTokens: int, totalCompletionTokens: int, totalTokens: int,
    lastCallTime: Option<String>, provider: String, model: String)

  /** What one `requests.post` gives back: a status with the body as
    * `response.json()` decodes it (`None` when the body is not JSON), a
    * timeout, or any other failure to get a reply. */
  datatype Reply =
    | Response(status: int, body: Option<Json>)
    | Timeout
    | ConnectionFailed

  /** `usage.get(key, 0)` as an amount to add: an absent key adds 0, a bool
    * adds 0 or 1 as Python's arithmetic does, and any other value makes the
    * `+=` raise. */
  function TokenCount(usage: map<String, Json>, key: String): (r: Option<int>)
    ensures key !in usage ==> r == Some(0)
    ensures key in usage && usage[key].JInt? ==> r == Some(usage[key].i)
    ensures r.None? <==> key in usage && !usage[key].JInt? && !usage[key].JBool?
  {
    if key !in usage then Some(0)
    else match usage[key]
      case JInt(i) => Some(i)
      case JBool(b) => Some(if b then 1 else 0)
      case _ => None
  }

  /** A 200 reply whose body is a JSON object: `chat` counts it. */
  predicate Answered(reply: Reply) {
    reply.Response? && reply.status == 200 && reply.body.Some? && reply.body.value.JObj?
  }

  /** `result.get('usage', {})` of an answered reply. */
  function Usage(reply: Reply): Json
    requires Answered(reply)
  {
    var result := reply.body.value.fields;
    if "usage" in result then result["usage"] else JObj(map[])
  }

  /** An answered reply whose usage is an object with three addable counts:
    * every bookkeeping step of `chat` goes through. */
  predicate FullyCounted(reply: Reply) {
    && Answered(reply)
    && Usage(reply).JObj?
    && TokenCount(Usage(reply).fields, "prompt_tokens").Some?
    && TokenCount(Usage(reply).fields, "completion_tokens").Some?
    && TokenCount(Usage(reply).fields, "total_tokens").Some?
  }

  /** What `chat` leaves in `api_stats`. An answered reply is counted as soon
    * as its usage has been read; the three token counters are then added in
    * turn and the call time is set after the last of them. A step that
    * raises leaves the later ones undone (the exception is caught and the
    * call answers None). Any other reply changes nothing. */
  function Recorded(s: Stats, reply: Reply, now: String): Stats {
    if !Answered(reply) then s
    else
      var s1 := s.(totalCalls := s.totalCalls + 1);
      var usage := Usage(reply);
      if !usage.JObj? then s1
      else match TokenCount(usage.fields, "prompt_tokens")
        case None => s1
        case Some(p) =>
          var s2 := s1.(totalPromptTokens := s1.totalPromptTokens + p);
          match TokenCount(usage.fields, "completion_tokens")
          case None => s2
          case Some(c) =>
            var s3 := s2.(totalCompletionTokens := s2.totalCompletionTokens + c);
            match TokenCount(usage.fields, "total_tokens")
            case None => s3
            case Some(t) => s3.(totalTokens := s3.totalTokens + t, lastCallTime := Some(now))
  }

  /** `result['choices'][0]['message']['content']`, or None when a step of
    * the lookup raises. */
  function Content(result: map<String, Json>): (r: Option<Json>)
    ensures "choices" !in result ==> r.None?
    ensures r.Some? ==>
      && "choices" in result && result["choices"].JArr? && |result["choices"].items| > 0
      && result["choices"].items[0].JObj? && "message" in result["choices"].items[0].fields
      && result["choices"].items[0].fields["message"].JObj?
      && "content" in result["choices"].items[0].fields["message"].fields
      && r == Some(result["choices"].items[0].fields["message"].fields["content"])
    ensures "choices" in result && result["choices"].JArr? && |result["choices"].items| == 0 ==> r.None?
  {
    if "choices" in result && result["choices"].JArr? && |result["choices"].items| > 0 then
      var choice := result["choices"].items[0];
      if choice.JObj? && "message" in choice.fields && choice.fields["message"].JObj?
        && "content" in choice.fields["message"].fields
      then Some(choice.fields["message"].fields["content"])
      else None
    else None
  }

  /** A body whose first choice carries a message with `content` yields that
    * content, whatever the other choices and keys hold. */
  lemma ContentOfWellFormedReply(body: map<String, Json>, content: Json, message: map<String, Json>,
                                 choice: map<String, Json>, rest: seq<Json>)
    ensures var msg := message["content" := content];
      Content(body["choices" := JArr([JObj(choice["message" := JObj(msg)])] + rest)]) == Some(content)
  {
  }

  /** What `chat` returns. */
  function Answer(reply: Reply): Option<Json> {
    if FullyCounted(reply) then Content(reply.body.value.fields) else None
  }

  /** A reply that is not a 200 with a JSON object leaves the statistics alone
    * and gives no answer. */
  lemma FailedReplyNotCounted(s: Stats, reply: Reply, now: String)
    requires !Answered(reply)
    ensures Recorded(s, reply, now) == s
    ensures Answer(reply) == None
  {
  }

  /** A fully counted reply adds one call and exactly its token counts, and
    * stamps the call time. */
  lemma AnsweredReplyCounted(s: Stats, reply: Reply, now: String)
    requires FullyCounted(reply)
    ensures var u := Usage(reply).fields;
      Recorded(s, reply, now) == s.(
        totalCalls := s.totalCalls + 1,
        totalPromptTokens := s.totalPromptTokens + TokenCount(u, "prompt_tokens").value,
        totalCompletionTokens := s.totalCompletionTokens + TokenCount(u, "completion_tokens").value,
        totalTokens := s.totalTokens + TokenCount(u, "total_tokens").value,
        lastCallTime := Some(now))
  {
  }

  /** A 200 body without `choices` is still counted, although `chat` then
    * answers None. */
  lemma CountedWithoutChoices(s: Stats, reply: Reply, now: String)
    requires FullyCounted(reply) && "choices" !in reply.body.value.fields
    ensures Recorded(s, reply, now).totalCalls == s.totalCalls + 1
    ensures Answer(reply) == None
  {
  }

  /** Every call adds at most one to the call count, and only the counters
    * and the call time change: the provider and model never do. */
  lemma RecordedChangesOnlyCounters(s: Stats, reply: Reply, now: String)
    ensures var r := Recorded(s, reply, now);
      && (r.totalCalls == s.totalCalls || r.totalCalls == s.totalCalls + 1)
      && r.provider == s.provider && r.model == s.model
      && (r.lastCallTime == s.lastCallTime || r.lastCallTime == Some(now))
  {
  }

  /** The statistics `reset_api_stats` leaves: the four counters zero and no
    * call time; provider and model stay. */
  function Cleared(s: Stats): (r: Stats)
    ensures r.totalCalls == 0 && r.totalPromptTokens == 0 && r.totalCompletionTokens == 0
    ensures r.totalTokens == 0 && r.lastCallTime.None?
    ensures r.provider == s.provider && r.model == s.model
  {
    s.(totalCalls := 0, totalPromptTokens := 0, totalCompletionTokens := 0, totalTokens := 0,
       lastCallTime := None)
  }

  /** A reset after any sequence of calls gives the same statistics as a reset
    * before them, and resetting twice is resetting once. */
  lemma ClearedForgetsCalls(s: Stats, reply: Reply, now: String)
    ensures Cleared(Recorded(s, reply, now)) == Cleared(s)
    ensures Cleared(Cleared(s)) == Cleared(s)
  {
  }

  /** The module-level `api_stats` dictionary, which every client updates. */
  class ApiStats {
    var totalCalls: int
    var totalPromptTokens: int
    var totalCompletionTokens: int
    var totalTokens: int
    var lastCallTime: Option<String>
    var provider: String
    var model: String

    function Snapshot(): Stats
      reads this
    {
      Stats(totalCalls, totalPromptTokens, totalCompletionTokens, totalTokens, lastCallTime, provider, model)
    }

    /** The dictionary at import time. */
    constructor ()
      ensures Snapshot() == Stats(0, 0, 0, 0, None, "", "")
    {
      totalCalls, totalPromptTokens, totalCompletionTokens, totalTokens := 0, 0, 0, 0;
      lastCallTime, provider, model := None, "", "";
    }

    /** `api_stats['provider'] = ...; api_stats['model'] = ...` */
    method Label(newProvider: String, newModel: String)
      modifies this
      ensures Snapshot() == old(Snapshot()).(provider := newProvider, model := newModel)
    {
      provider, model := newProvider, newModel;
    }

    /** The bookkeeping half of `AIClient.chat`. */
    method Record(reply: Reply, now: String)
      modifies this
      ensures Snapshot() == Recorded(old(Snapshot()), reply, now)
    {
      if !Answered(reply) {
        return;
      }
      var usage := Usage(reply);
      totalCalls := totalCalls + 1;
      if !usage.JObj? {
        return;
      }
      var p := TokenCount(usage.fields, "prompt_tokens");
      if p.None? {
        return;
      }
      totalPromptTokens := totalPromptTokens + p.value;
      var c := TokenCount(usage.fields, "completion_tokens");
      if c.None? {
        return;
      }
      totalCompletionTokens := totalCompletionTokens + c.value;
      var t := TokenCount(usage.fields, "total_tokens");
      if t.None? {
        return;
      }
      totalTokens := totalTokens + t.value;
      lastCallTime := Some(now);
    }

    /** `reset_api_stats`: returns the statistics as they were, then clears
      * them. */
    method Reset() returns (before: Stats)
      modifies this
      ensures before == old(Snapshot())
      ensures Snapshot() == Cleared(before)
    {
      before := Snapshot();
      totalCalls := 0;
      totalPromptTokens := 0;
      totalCompletionTokens := 0;
      totalTokens := 0;
      lastCallTime := None;
    }
  }

  /** What `get_api_stats` reports. */
  datatype StatsReport = StatsReport(
    provider: String, model: String, totalCalls: int, totalPromptTokens: int,
    totalCompletionTokens: int, totalTokens: int, lastCallTime: Option<String>, isCustomKey: bool)

  /** `get_api_stats`, given what `get_api_config()` returns: an empty
    * provider or model falls back to the configured one. */
  function Report(s: Stats, config: ApiConfig): (r: StatsReport)
    ensures r.provider == "" <==> s.provider == "" && config.providerName == ""
    ensures r.model == "" <==> s.model == "" && config.modelName == ""
    ensures s.provider != "" ==> r.provider == s.provider
    ensures s.model != "" ==> r.model == s.model
    ensures r.totalCalls == s.totalCalls && r.totalTokens == s.totalTokens
    ensures r.totalPromptTokens == s.totalPromptTokens && r.totalCompletionTokens == s.totalCompletionTokens
    ensures r.lastCallTime == s.lastCallTime && r.isCustomKey == config.isCustom
  {
    StatsReport(
      if s.provider != "" then s.provider else config.providerName,
      if s.model != "" then s.model else config.modelName,
      s.totalCalls, s.totalPromptTokens, s.totalCompletionTokens, s.totalTokens,
      s.lastCallTime, config.isCustom)
  }

  /** Before any client has labelled the statistics, the report names the
    * configured provider and model. */
  lemma ReportBeforeAnyClient(config: ApiConfig)
    ensures Report(Stats(0, 0, 0, 0, None, "", ""), config).provider == config.providerName
    ensures Report(Stats(0, 0, 0, 0, None, "", ""), config).model == config.modelName
  {
  }

  // ---------------------------------------------------------------------
  // `_parse_json_response`

  /** The text `interview_questions"` the fallback pattern starts with. */
  const QuestionsKey: String := "interview_questions\""

  /** The rest of the pattern, `\s*:\s*\[([\s\S]*?)\]`, matches from `p`
    * with the `:` at `j`, the `[` at `k` and the closing `]` at `e`: only
    * spaces between `p`, `:` and `[`, and no `]` between `[` and `e`, since
    * the lazy group stops at the first one. */
  predicate BracketsSplit(s: String, p: int, j: int, k: int, e: int) {
    && 0 <= p <= j < k < e < |s|
    && (forall t :: p <= t < j ==> IsSpace(s[t]))
    && s[j] == ':'
    && (forall t :: j < t < k ==> IsSpace(s[t]))
    && s[k] == '['
    && (forall t :: k < t < e ==> s[t] != ']')
    && s[e] == ']'
  }

  /** The pattern `interview_questions"\s*:\s*\[([\s\S]*?)\]` matches
    * with the key at `i` and the rest split at `j`, `k` and `e`. */
  predicate QuestionsSplit(s: String, i: int, j: int, k: int, e: int) {
    ContainsAt(s, QuestionsKey, i) && BracketsSplit(s, i + |QuestionsKey|, j, k, e)
  }

  /** The pattern matches with the key at `i`. */
  ghost predicate HasQuestionsAt(s: String, i: int) {
    exists j, k, e :: QuestionsSplit(s, i, j, k, e)
  }

  /** The rest of the pattern takes each run of spaces whole and ends at the
    * first `]` after `[`, so it matches in at most one way. */
  lemma QuestionsSplitFollowsRuns(s: String, p: nat, j: int, k: int, e: int)
    requires p <= |s|
    ensures BracketsSplit(s, p, j, k, e) ==>
      && j == SkipSpaces(s, p)
      && k == SkipSpaces(s, j + 1)
      && e == k + 1 + IndexOfChar(s[k + 1..], ']')
  {
    if BracketsSplit(s, p, j, k, e) {
      assert !IsSpace(s[j]) && !IsSpace(s[k]);
      assert s[k + 1..][e - k - 1] == ']';
      var tail := s[k + 1..];
      assert forall t :: 0 <= t < e - k - 1 ==> tail[t] != ']';
    }
  }

  /** A match of the rest from `p` has its `:` after the first run of spaces,
    * its `[` after the second, and a `]` after that. */
  lemma BracketsNeeded(s: String, p: nat)
    requires p <= |s|
    ensures (exists j, k, e :: BracketsSplit(s, p, j, k, e)) ==>
      var j := SkipSpaces(s, p);
      && j < |s| && s[j] == ':'
      && var k := SkipSpaces(s, j + 1);
      && k < |s| && s[k] == '['
      && IndexOfChar(s[k + 1..], ']') < |s[k + 1..]|
  {
    if exists j, k, e :: BracketsSplit(s, p, j, k, e) {
      var j, k, e :| BracketsSplit(s, p, j, k, e);
      QuestionsSplitFollowsRuns(s, p, j, k, e);
    }
  }

  /** The first `]` after the `[` that follows the spaces, `:` and spaces
    * from `p` closes a match of the rest. */
  lemma BracketsFound(s: String, p: nat, j: nat, k: nat, m: nat)
    requires p <= |s| && j == SkipSpaces(s, p) && j < |s| && s[j] == ':'
    requires k == SkipSpaces(s, j + 1) && k < |s| && s[k] == '['
    requires m == IndexOfChar(s[k + 1..], ']') && m < |s| - k - 1
    ensures BracketsSplit(s, p, j, k, k + 1 + m)
  {
    var tail := s[k + 1..];
    assert forall t :: k < t < k + 1 + m ==> s[t] == tail[t - k - 1];
  }

  /** Where the `[` and the closing `]` of a match of the rest from `p` are. */
  function BracketsAfter(s: String, p: nat): (r: Option<(nat, nat)>)
    requires p <= |s|
    ensures r.Some? ==> BracketsSplit(s, p, SkipSpaces(s, p), r.value.0, r.value.1)
    ensures r.None? ==> forall j, k, e :: !BracketsSplit(s, p, j, k, e)
  {
    BracketsNeeded(s, p);
    var j := SkipSpaces(s, p);
    if j < |s| && s[j] == ':' then
      var k := SkipSpaces(s, j + 1);
      if k < |s| && s[k] == '[' then
        var m := IndexOfChar(s[k + 1..], ']');
        if m < |s| - k - 1 then
          BracketsFound(s, p, j, k, m);
          Some((k, k + 1 + m))
        else None
      else None
    else None
  }

  /** Where the `[` and the closing `]` of a match with the key at `i` are. */
  function QuestionsBrackets(s: String, i: nat): (r: Option<(nat, nat)>)
    requires ContainsAt(s, QuestionsKey, i)
    ensures r.Some? ==> QuestionsSplit(s, i, SkipSpaces(s, i + |QuestionsKey|), r.value.0, r.value.1)
    ensures r.None? <==> !HasQuestionsAt(s, i)
  {
    var r := BracketsAfter(s, i + |QuestionsKey|);
    assert r.Some? ==> QuestionsSplit(s, i, SkipSpaces(s, i + |QuestionsKey|), r.value.0, r.value.1);
    r
  }

  /** Group 1 of the pattern with the key at `i`: the text from after `[` up
    * to the first `]`. A run of spaces is taken whole, since giving one back
    * leaves a space where `:` or `[` is needed. */
  function QuestionsGroupAt(s: String, i: nat): (r: Option<String>)
    requires ContainsAt(s, QuestionsKey, i)
    ensures r.Some? ==> ']' !in r.value && Contains(s, r.value)
    ensures r.Some? ==> exists j, k, e :: QuestionsSplit(s, i, j, k, e) && r.value == s[k + 1..e]
    ensures r.None? <==> !HasQuestionsAt(s, i)
  {
    match QuestionsBrackets(s, i)
    case None => None
    case Some((k, e)) =>
      assert ContainsAt(s, s[k + 1..e], k + 1);
      var g := s[k + 1..e];
      assert forall t :: 0 <= t < |g| ==> g[t] == s[k + 1 + t];
      Some(g)
  }

  /** Without the key at `i`, the pattern cannot match there. */
  lemma NoKeyNoQuestions(s: String, i: int)
    ensures !ContainsAt(s, QuestionsKey, i) ==> !HasQuestionsAt(s, i)
  {
  }

  /** No match from `from` up to `i`, none at `i`, and none from `i + 1`
    * up to `next` (or at all, without `next`): none from `from` up to `next`. */
  lemma NoQuestionsAcross(s: String, from: int, i: int, next: Option<nat>)
    requires forall i' :: from <= i' < i ==> !HasQuestionsAt(s, i')
    requires !HasQuestionsAt(s, i)
    requires forall i' :: i + 1 <= i' && (next.None? || i' < next.value) ==> !HasQuestionsAt(s, i')
    ensures forall i' :: from <= i' && (next.None? || i' < next.value) ==> !HasQuestionsAt(s, i')
  {
    forall i' | from <= i' && (next.None? || i' < next.value)
      ensures !HasQuestionsAt(s, i')
    {
      if i' < i {
      } else if i' == i {
      } else {
        assert i + 1 <= i';
      }
    }
  }

  /** The leftmost index at or after `from` where the pattern matches: where
    * `re.search` finds its match. */
  function QuestionsStart(s: String, from: nat): (r: Option<nat>)
    ensures r.Some? ==> from <= r.value && ContainsAt(s, QuestionsKey, r.value) && HasQuestionsAt(s, r.value)
    ensures forall i :: from <= i && (r.None? || i < r.value) ==> !HasQuestionsAt(s, i)
    decreases |s| + 1 - from
  {
    match FindFrom(s, QuestionsKey, from)
    case None =>
      assert forall i :: from <= i ==> !HasQuestionsAt(s, i) by {
        forall i | from <= i ensures !HasQuestionsAt(s, i) { NoKeyNoQuestions(s, i); }
      }
      None
    case Some(i) =>
      assert forall i' :: from <= i' < i ==> !HasQuestionsAt(s, i') by {
        forall i' | from <= i' < i ensures !HasQuestionsAt(s, i') { NoKeyNoQuestions(s, i'); }
      }
      if QuestionsGroupAt(s, i).Some? then Some(i)
      else
        var r := QuestionsStart(s, i + 1);
        NoQuestionsAcross(s, from, i, r);
        r
  }

  /** Group 1 of the first match at or after `from`: the group at the leftmost
    * occurrence of the key where the pattern matches. */
  function QuestionsGroup(s: String, from: nat): (r: Option<String>)
    ensures r.Some? ==> ']' !in r.value && Contains(s, r.value)
    ensures r.None? <==> forall i :: from <= i ==> !HasQuestionsAt(s, i)
    ensures QuestionsStart(s, from).Some? ==> r == QuestionsGroupAt(s, QuestionsStart(s, from).value)
  {
    match QuestionsStart(s, from)
    case None => None
    case Some(i) => QuestionsGroupAt(s, i)
  }

  /** `a` is the first `{` of `s` and `b`, after it, the last `}`: the span a
    * leftmost, greedy `\{[\s\S]*\}` matches. */
  predicate OuterBraces(s: String, a: int, b: int) {
    && 0 <= a < b < |s| && s[a] == '{' && s[b] == '}'
    && (forall k :: 0 <= k < a ==> s[k] != '{')
    && (forall k :: b < k < |s| ==> s[k] != '}')
  }

  /** `\{[\s\S]*\}`: from the first `{` to the last `}` after it. */
  function BraceSpan(s: String): (r: Option<String>)
    ensures r.Some? ==> |r.value| >= 2 && r.value[0] == '{' && r.value[|r.value| - 1] == '}'
    ensures r.Some? ==> Contains(s, r.value)
    ensures r.None? <==> ('{' !in s || forall k :: IndexOfChar(s, '{') < k < |s| ==> s[k] != '}')
    ensures r.Some? ==> exists a, b :: OuterBraces(s, a, b) && r.value == s[a..b + 1]
  {
    var a := IndexOfChar(s, '{');
    var b := LastIndexOfChar(s, '}');
    if a < |s| && a < b then
      assert ContainsAt(s, s[a..b + 1], a);
      assert OuterBraces(s, a, b);
      Some(s[a..b + 1])
    else None
  }

  /** `_parse_json_response`: the reply decoded as it is; failing that, the
    * question list cut out of it; failing that, the span from its first `{`
    * to its last `}`; failing all three, `{}`. */
  function ParseJsonResponse(decode: String -> Option<Json>, response: String): (r: Json)
    ensures decode(response).Some? ==> r == decode(response).value
    ensures var q := QuestionsGroup(response, 0);
      decode(response).None? && q.Some? && decode("[" + q.value + "]").Some? ==>
        r == JObj(map["interview_questions" := decode("[" + q.value + "]").value])
    ensures var q := QuestionsGroup(response, 0);
      var span := BraceSpan(response);
      (&& decode(response).None? && (q.None? || decode("[" + q.value + "]").None?)
       && span.Some? && decode(span.value).Some?) ==> r == decode(span.value).value
    ensures var q := QuestionsGroup(response, 0);
      var span := BraceSpan(response);
      (&& decode(response).None? && (q.None? || decode("[" + q.value + "]").None?)
       && (span.None? || decode(span.value).None?)) ==> r == JObj(map[])
  {
    match decode(response)
    case Some(v) => v
    case None =>
      var questions := QuestionsGroup(response, 0);
      if questions.Some? && decode("[" + questions.value + "]").Some? then
        JObj(map["interview_questions" := decode("[" + questions.value + "]").value])
      else
        var span := BraceSpan(response);
        if span.Some? && decode(span.value).Some? then decode(span.value).value
        else JObj(map[])
  }

  /** Whatever `_parse_json_response` returns comes out of the reply: the
    * decoding of the reply or of a piece of it, the decoding of a bracketed
    * piece of it under `interview_questions`, or `{}`. */
  lemma ParsedComesFromReply(decode: String -> Option<Json>, response: String)
    ensures var r := ParseJsonResponse(decode, response);
      || r == JObj(map[])
      || (exists t :: Contains(response, t) && decode(t) == Some(r))
      || (exists g :: Contains(response, g) && ']' !in g && decode("[" + g + "]").Some? &&
            r == JObj(map["interview_questions" := decode("[" + g + "]").value]))
  {
    var r := ParseJsonResponse(decode, response);
    if decode(response).Some? {
      assert ContainsAt(response, response, 0);
      assert Contains(response, response) && decode(response) == Some(r);
    } else {
      var questions := QuestionsGroup(response, 0);
      if questions.Some? && decode("[" + questions.value + "]").Some? {
        assert Contains(response, questions.value);
      } else {
        var span := BraceSpan(response);
        if span.Some? && decode(span.value).Some? {
          assert Contains(response, span.value) && decode(span.value) == Some(r);
        }
      }
    }
  }

  /** When no piece of the reply decodes, the result is `{}`. */
  lemma NothingDecodesGivesEmpty(decode: String -> Option<Json>, response: String)
    requires forall t :: decode(t).None?
    ensures ParseJsonResponse(decode, response) == JObj(map[])
  {
    var q := QuestionsGroup(response, 0);
    if q.Some? {
      BracketedRejected(decode, q.value);
    }
    NoLayerGivesEmpty(decode, response, q, BraceSpan(response));
  }

  /** A decoder that accepts nothing rejects a bracketed group too. */
  lemma BracketedRejected(decode: String -> Option<Json>, g: String)
    requires forall t :: decode(t).None?
    ensures decode("[" + g + "]").None?
  {
  }

  /** The fourth layer of `_parse_json_response`, for given outcomes of the
    * second and third layers' searches. */
  lemma NoLayerGivesEmpty(decode: String -> Option<Json>, response: String, q: Option<String>, span: Option<String>)
    requires q == QuestionsGroup(response, 0) && span == BraceSpan(response)
    requires decode(response).None?
    requires q.None? || decode("[" + q.value + "]").None?
    requires span.None? || decode(span.value).None?
    ensures ParseJsonResponse(decode, response) == JObj(map[])
  {
  }

  // ---------------------------------------------------------------------
  // The client and its use cases

  /** The request `chat` posts: URL, authorization header and payload; the
    * temperature is in tenths. */
  datatype Request = Request(
    url: String, authorization: String, model: String, prompt: String,
    temperatureTenths: nat, maxTokens: nat)

  /** The four use cases of the client. */
  datatype UseCase = AnalyzeResume | MatchJd | InterviewQuestions | SelfIntroduction

  /** The opening sentence and the heading of the résumé in each prompt. */
  function PromptHead(u: UseCase): String {
    match u
    case AnalyzeResume => "你是一个专业的HR和简历优化专家。请分析以下简历，找出其中的问题并提供改进建议。\n\n简历内容：\n"
    case MatchJd => "你是一个专业的HR。请分析简历与岗位JD的匹配程度。\n\n简历内容：\n"
    case InterviewQuestions => "你是一个专业的面试官。请根据简历和岗位JD，生成12-15道面试题。\n\n简历内容：\n"
    case SelfIntroduction => "你是一个专业的职业顾问。请根据简历和岗位JD，生成一份专业的自我介绍。\n\n简历内容：\n"
  }

  /** The heading of the job description in the prompts that carry one. */
  const JdHeading: String := "\n\n岗位JD：\n"

  /** The instructions that close each prompt, with the JSON shape the reply
    * must follow: a fixed text per use case, not spelled out here. */
  const AnalysisInstructions: String
  const MatchInstructions: String
  const QuestionInstructions: String
  const IntroductionInstructions: String

  function Instructions(u: UseCase): String {
    match u
    case AnalyzeResume => AnalysisInstructions
    case MatchJd => MatchInstructions
    case InterviewQuestions => QuestionInstructions
    case SelfIntroduction => IntroductionInstructions
  }

  /** The prompt of a use case: the first 8000 characters of the résumé for
    * an analysis, or the first 6000 of the résumé and the first 4000 of the
    * job description for the others. */
  function Prompt(u: UseCase, resume: String, jd: String): String {
    if u == AnalyzeResume then PromptHead(u) + Take(resume, 8000) + Instructions(u)
    else PromptHead(u) + Take(resume, 6000) + JdHeading + Take(jd, 4000) + Instructions(u)
  }

  /** The prompt sees only the first 8000 (analysis) or 6000 characters of the
    * résumé, and only the first 4000 of the job description: texts that agree
    * there give the same prompt. */
  lemma PromptSeesOnlyPrefixes(u: UseCase, resume1: String, resume2: String, jd1: String, jd2: String)
    requires u == AnalyzeResume ==> Take(resume1, 8000) == Take(resume2, 8000)
    requires u != AnalyzeResume ==> Take(resume1, 6000) == Take(resume2, 6000) && Take(jd1, 4000) == Take(jd2, 4000)
    ensures u == AnalyzeResume ==> Prompt(u, resume1, jd1) == Prompt(u, resume2, jd2)
    ensures u != AnalyzeResume ==> Prompt(u, resume1, jd1) == Prompt(u, resume2, jd2)
  {
  }

  /** A résumé within the limit is embedded whole, right after the head. */
  lemma ShortResumeEmbeddedWhole(u: UseCase, resume: String, jd: String)
    requires |resume| <= (if u == AnalyzeResume then 8000 else 6000)
    ensures var p := Prompt(u, resume, jd);
      |PromptHead(u)| + |resume| <= |p| && p[|PromptHead(u)|..|PromptHead(u)| + |resume|] == resume
  {
    var p := Prompt(u, resume, jd);
    var h := PromptHead(u);
    assert Take(resume, if u == AnalyzeResume then 8000 else 6000) == resume;
    if u == AnalyzeResume {
      assert p == h + resume + Instructions(u);
    } else {
      assert p == h + resume + (JdHeading + Take(jd, 4000) + Instructions(u));
    }
  }

  /** `temperature=0.5` for the analyses, `0.7` for the generated texts. */
  function TemperatureTenths(u: UseCase): nat {
    if u == AnalyzeResume || u == MatchJd then 5 else 7
  }

  /** The fixed result of each use case when the model gives no answer. */
  function DefaultPayload(u: UseCase): (r: Json)
    ensures r.JObj?
  {
    match u
    case AnalyzeResume =>
      JObj(map[
        "score" := JInt(70),
        "strengths" := Strings(["简历结构清晰"]),
        "weaknesses" := Strings(["建议添加更多量化数据"]),
        "suggestions" := Strings(["建议优化工作描述", "建议补充项目经验"]),
        "recommended_positions" := Strings(["建议咨询具体岗位方向"])])
    case MatchJd =>
      JObj(map[
        "match_score" := JInt(60),
        "matched_skills" := Strings([]),
        "missing_skills" := Strings(["请上传简历和JD后重新分析"]),
        "matched_experiences" := Strings([]),
        "suggestions" := Strings(["请确保简历和JD信息完整"]),
        "match_details" := JStr("信息不完整，无法准确匹配")])
    case InterviewQuestions =>
      JObj(map["interview_questions" := JArr([
        JObj(map[
          "type" := JStr("自我介绍"),
          "question" := JStr("请简单介绍一下你自己"),
          "answer_points" := Strings(["基本信息", "工作经历", "核心竞争力"]),
          "sample_answer" := JStr("您好，我叫XXX，有X年工作经验..."),
          "tips" := JStr("简明扼要，突出与岗位的匹配度")])])])
    case SelfIntroduction =>
      JObj(map[
        "one_minute" := JStr("请上传简历后生成自我介绍"),
        "three_minutes" := JStr("请上传简历后生成自我介绍"),
        "key_points" := Strings(["基本信息", "核心能力", "求职意向"])])
  }

  /** Each default carries the keys its prompt asks the model for. */
  lemma DefaultPayloadKeys()
    ensures DefaultPayload(AnalyzeResume).fields.Keys ==
      {"score", "strengths", "weaknesses", "suggestions", "recommended_positions"}
    ensures DefaultPayload(MatchJd).fields.Keys ==
      {"match_score", "matched_skills", "missing_skills", "matched_experiences", "suggestions", "match_details"}
    ensures DefaultPayload(InterviewQuestions).fields.Keys == {"interview_questions"}
    ensures DefaultPayload(SelfIntroduction).fields.Keys == {"one_minute", "three_minutes", "key_points"}
  {
  }

  /** The default question list holds a single question. */
  lemma DefaultQuestionsHoldOne()
    ensures var q := DefaultPayload(InterviewQuestions).fields["interview_questions"];
      q.JArr? && |q.items| == 1
  {
  }

  /** What a use case makes of the answer: its default when the answer is
    * None or falsy (`if response:`), the parsed reply when it is a text;
    * `json.loads` of any other value raises `TypeError`. */
  function Outcome(answer: Option<Json>, decode: String -> Option<Json>, default: Json): (r: Result<Json, Failure>)
    ensures answer.None? || !Truthy(answer.value) ==> r == Ok(default)
    ensures r.Err? <==> answer.Some? && Truthy(answer.value) && !answer.value.JStr?
  {
    match answer
    case None => Ok(default)
    case Some(v) =>
      if !Truthy(v) then Ok(default)
      else if v.JStr? then Ok(ParseJsonResponse(decode, v.s))
      else Err(TypeError)
  }

  /** A reply that does not get through gives the use case's default. */
  lemma FailedReplyGivesDefault(u: UseCase, reply: Reply, decode: String -> Option<Json>)
    requires !Answered(reply)
    ensures Outcome(Answer(reply), decode, DefaultPayload(u)) == Ok(DefaultPayload(u))
  {
  }

  /** `AIClient`: the settings of the calls and the statistics it updates. */
  class Client {
    var apiConfig: ApiConfig
    var apiUrl: String
    var authorization: String
    /** The module-level `api_stats`. */
    const stats: ApiStats

    /** What `update_headers` establishes. */
    predicate HeadersMatch()
      reads this
    {
      apiUrl == apiConfig.apiBaseUrl + "/chat/completions" && authorization == "Bearer " + apiConfig.apiKey
    }

    /** `AIClient()` with the settings `get_api_config()` returns. */
    constructor (config: ApiConfig, stats: ApiStats)
      modifies stats
      ensures this.stats == stats && apiConfig == config && HeadersMatch()
      ensures stats.Snapshot() == old(stats.Snapshot()).(provider := config.providerName, model := config.modelName)
    {
      apiConfig := config;
      apiUrl := config.apiBaseUrl + "/chat/completions";
      authorization := "Bearer " + config.apiKey;
      this.stats := stats;
      new;
      stats.Label(config.providerName, config.modelName);
    }

    /** `update_headers` */
    method UpdateHeaders()
      modifies this
      ensures apiConfig == old(apiConfig) && HeadersMatch()
    {
      apiUrl := apiConfig.apiBaseUrl + "/chat/completions";
      authorization := "Bearer " + apiConfig.apiKey;
    }

    /** `refresh_config`, with the settings `get_api_config()` now returns. */
    method RefreshConfig(config: ApiConfig)
      modifies this, stats
      ensures apiConfig == config && HeadersMatch()
      ensures stats.Snapshot() == old(stats.Snapshot()).(provider := config.providerName, model := config.modelName)
    {
      apiConfig := config;
      UpdateHeaders();
      stats.Label(config.providerName, config.modelName);
    }

    /** `chat`: posts the prompt, records the reply in the statistics and
      * returns the message content. */
    method Chat(prompt: String, temperatureTenths: nat, reply: Reply, now: String)
      returns (request: Request, answer: Option<Json>)
      modifies stats
      ensures request == Request(apiUrl, authorization, apiConfig.modelName, prompt, temperatureTenths, 4000)
      ensures stats.Snapshot() == Recorded(old(stats.Snapshot()), reply, now)
      ensures answer == Answer(reply)
    {
      request := Request(apiUrl, authorization, apiConfig.modelName, prompt, temperatureTenths, 4000);
      stats.Record(reply, now);
      answer := Answer(reply);
    }

    /** `analyze_resume`, `match_jd`, `generate_interview_questions` and
      * `generate_self_introduction`: one chat with the use case's prompt,
      * then its parsed answer or its default. */
    method Ask(u: UseCase, resume: String, jd: String, reply: Reply, now: String, decode: String -> Option<Json>)
      returns (request: Request, r: Result<Json, Failure>)
      modifies stats
      ensures request.prompt == Prompt(u, resume, jd) && request.temperatureTenths == TemperatureTenths(u)
      ensures request.url == apiUrl && request.model == apiConfig.modelName && request.maxTokens == 4000
      ensures stats.Snapshot() == Recorded(old(stats.Snapshot()), reply, now)
      ensures r == Outcome(Answer(reply), decode, DefaultPayload(u))
    {
      var answer;
      request, answer := Chat(Prompt(u, resume, jd), TemperatureTenths(u), reply, now);
      r := Outcome(answer, decode, DefaultPayload(u));
    }
  }

  /** The module-level `ai_client` variable and the `api_stats` it shares. */
  class ClientSlot {
    var client: Option<Client>
    const stats: ApiStats

    predicate Valid()
      reads this
    {
      client.Some? ==> client.value.stats == stats
    }

    constructor (stats: ApiStats)
      ensures client.None? && this.stats == stats && Valid()
    {
      client := None;
      this.stats := stats;
    }

    /** `get_ai_client`: creates the client on first use and otherwise
      * refreshes the existing one, so the client always carries the current
      * settings. */
    method GetAiClient(config: ApiConfig) returns (c: Client)
      requires Valid()
      modifies this, stats, if client.Some? then {client.value} else {}
      ensures Valid() && client == Some(c) && c.stats == stats
      ensures old(client).Some? ==> c == old(client).value
      ensures old(client).None? ==> fresh(c)
      ensures c.apiConfig == config && c.HeadersMatch()
      ensures stats.Snapshot() == old(stats.Snapshot()).(provider := config.providerName, model := config.modelName)
    {
      if client.None? {
        c := new Client(config, stats);
        client := Some(c);
      } else {
        c := client.value;
        c.RefreshConfig(config);
      }
    }
  }
}
