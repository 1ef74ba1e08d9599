/** The built-in interview question bank of `utils/analyzer.py`, which
  * replaces a question set the model returns too short. */
module QuestionBank {
  import opened Text
  import opened Json

  /** The question types, in the order the prompt asks for them. */
  datatype Kind = IntroduceSelf | PostFit | WorkHistory | Expertise | Behaviour | OpenQuestion

  /** The label each type carries in the `type` field. */
  function KindName(k: Kind): String {
    match k
    case IntroduceSelf => "自我介绍"
    case PostFit => "岗位相关性"
    case WorkHistory => "工作经历"
    case Expertise => "技术能力"
    case Behaviour => "行为面试"
    case OpenQuestion => "开放问题"
  }

  /** The position of a type in the prompt's list. */
  function KindRank(k: Kind): nat {
    match k
    case IntroduceSelf => 0
    case PostFit => 1
    case WorkHistory => 2
    case Expertise => 3
    case Behaviour => 4
    case OpenQuestion => 5
  }

  /** One entry of the built-in question bank. */
  datatype Question = Question(
    kind: Kind, question: String, answerPoints: seq<String>, sampleAnswer: String, tips: String)

  /** The entry as the JSON object the pages show. */
  function QuestionJson(q: Question): (r: Json)
    ensures r.JObj? && r.fields.Keys == {"type", "question", "answer_points", "sample_answer", "tips"}
  {
    JObj(map[
      "type" := JStr(KindName(q.kind)),
      "question" := JStr(q.question),
      "answer_points" := Strings(q.answerPoints),
      "sample_answer" := JStr(q.sampleAnswer),
      "tips" := JStr(q.tips)])
  }

  /** The sample answer and the interviewing tip of the `k`-th question of
    * the bank: fixed texts, not spelled out here. */
  const SampleAnswer: nat -> String
  const Tip: nat -> String

  /** The `k`-th question of the bank. */
  function Entry(k: nat, kind: Kind, question: String, answerPoints: seq<String>): Question {
    Question(kind, question, answerPoints, SampleAnswer(k), Tip(k))
  }

  /** `DEFAULT_INTERVIEW_QUESTIONS` */
  function DefaultQuestionBank(): seq<Question> {
    [
      Entry(0, IntroduceSelf, "请简单介绍一下你自己，包括你的教育背景和工作经历。",
        ["姓名和学历", "工作年限和主要经历", "核心技能和优势", "为什么适合这个岗位"]),
      Entry(1, PostFit, "你为什么对我们公司这个岗位感兴趣？",
        ["对公司的了解", "岗位与个人发展的契合", "能为公司带来的价值"]),
      Entry(2, PostFit, "你对这个岗位的工作内容有什么了解？",
        ["岗位职责的理解", "关键工作内容", "可能面临的挑战"]),
      Entry(3, WorkHistory, "请描述你最有成就感的一个项目或工作成果。",
        ["项目背景", "具体行动", "量化结果"]),
      Entry(4, WorkHistory, "在你过去的工作中，遇到最大的挑战是什么？如何克服的？",
        ["挑战的具体描述", "采取的解决方案", "最终结果和学到的经验"]),
      Entry(5, WorkHistory, "请介绍一下你负责的最复杂的项目，你是如何协调资源和管理时间的？",
        ["项目复杂度", "资源协调方法", "时间管理策略"]),
      Entry(6, Expertise, "请介绍一下你最擅长的技术或技能，以及你是如何提升的？",
        ["技术名称和掌握程度", "学习途径", "实际应用案例"]),
      Entry(7, Expertise, "当你遇到不熟悉的技术或问题时，你会如何解决？",
        ["问题解决方法", "学习新技能的途径", "寻求帮助的方式"]),
      Entry(8, Expertise, "你是如何保持技术更新和学习新知识的？",
        ["学习方法和渠道", "时间分配", "学习成果"]),
      Entry(9, Behaviour, "请描述一次你与团队成员意见不合的经历，你是如何处理的？",
        ["冲突情境", "处理方式", "最终结果和反思"]),
      Entry(10, Behaviour, "请描述一次你工作压力很大的时候，你是如何处理的？",
        ["压力来源", "应对方法", "结果和收获"]),
      Entry(11, OpenQuestion, "你未来3-5年的职业规划是什么？",
        ["短期目标", "长期目标", "与应聘岗位的关系"]),
      Entry(12, OpenQuestion, "除了技术能力外，你认为自己还有哪些优点可以胜任这个岗位？",
        ["软技能", "个人特质", "与岗位的匹配"])
    ]
  }

  /** The bank as the JSON list that replaces a short answer. */
  function DefaultInterviewQuestions(): (r: Json)
    ensures r.JArr? && |r.items| == |DefaultQuestionBank()|
    ensures forall k :: 0 <= k < |r.items| ==> r.items[k] == QuestionJson(DefaultQuestionBank()[k])
  {
    JArr(seq(|DefaultQuestionBank()|, k requires 0 <= k < |DefaultQuestionBank()| => QuestionJson(DefaultQuestionBank()[k])))
  }

  /** The bank holds thirteen questions, grouped by type in the order the
    * prompt lists the types: one introduction, two on the post, three each
    * on experience and on expertise, two behavioural and two open ones,
    * every one with answer points. */
  lemma DefaultQuestionBankShape()
    ensures |DefaultQuestionBank()| == 13
    ensures forall k :: 0 <= k < 13 ==> DefaultQuestionBank()[k].answerPoints != []
    ensures forall j, k :: 0 <= j < k < 13 ==> KindRank(DefaultQuestionBank()[j].kind) <= KindRank(DefaultQuestionBank()[k].kind)
    ensures DefaultQuestionBank()[0].kind == IntroduceSelf && DefaultQuestionBank()[12].kind == OpenQuestion
  {
  }
}
