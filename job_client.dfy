/** The mock job board (`MockJobClient`): a fixed table of twenty postings,
  * a keyword, location and category search over it with pagination, and the
  * rule-based job-description parser. */
module JobClient {
  import opened Wrappers
  import opened Text

  /** One row of the job table. Every row has every key except `company`:
    * one row stores its company under the key `公司`, so for it the lookup
    * `job['company']` fails. `requirements` and `responsibilities` are read
    * with `.get(key, [])`. */
  datatype JobRecord = JobRecord(
    id: String, title: String, company: Option<String>, salary: String, location: String,
    tags: seq<String>, category: String, source: String,
    requirements: Option<seq<String>>, responsibilities: Option<seq<String>>)

  /** `JobPosition`, as the search builds it. */
  datatype JobPosition = JobPosition(
    id: String, title: String, company: String, salary: String, location: String,
    tags: seq<String>, category: String, source: String,
    requirements: seq<String>, responsibilities: seq<String>,
    postedTime: String, url: String)

  /** The exceptions the client lets escape. */
  datatype Failure = KeyError(key: String) | IndexError

  /** `_init_job_database` */
  function Database(): seq<JobRecord> {
    [
      JobRecord("1", "高级Python开发工程师", Some("字节跳动"), "25K-45K", "北京",
        ["Python", "Django", "Go"], "tech", "BOSS直聘",
        Some(["3年以上Python开发经验", "熟悉Django或Flask框架", "熟悉MySQL、Redis"]),
        Some(["负责后端系统设计和开发", "优化系统性能", "参与技术方案设计"])),
      JobRecord("2", "前端开发工程师", Some("阿里巴巴"), "20K-35K", "杭州",
        ["React", "Vue", "TypeScript"], "tech", "猎聘",
        Some(["2年以上前端开发经验", "熟悉React或Vue", "熟悉TypeScript"]),
        Some(["负责前端页面开发", "优化用户体验", "参与组件库建设"])),
      JobRecord("3", "产品经理", Some("腾讯科技"), "22K-40K", "深圳",
        ["C端产品", "用户增长", "数据分析"], "product", "前程无忧",
        Some(["3年以上产品经验", "熟悉产品设计流程", "数据分析能力强"]),
        Some(["负责产品规划", "需求分析和管理", "协调开发团队"])),
      JobRecord("4", "Java开发工程师", Some("美团"), "20K-38K", "北京",
        ["Java", "Spring Boot", "微服务"], "tech", "BOSS直聘",
        Some(["3年以上Java开发经验", "熟悉Spring Boot", "熟悉微服务架构"]),
        Some(["负责后端系统开发", "参与架构设计", "优化系统性能"])),
      JobRecord("5", "数据分析师", Some("京东集团"), "18K-30K", "北京",
        ["SQL", "Python", "Tableau"], "tech", "猎聘",
        Some(["2年以上数据分析经验", "熟悉SQL和Python", "熟练使用BI工具"]),
        Some(["负责数据分析报告", "支持业务决策", "建设数据指标体系"])),
      JobRecord("6", "用户运营经理", Some("小红书"), "18K-28K", "上海",
        ["用户增长", "活动策划", "数据分析"], "运营", "前程无忧",
        Some(["3年以上运营经验", "用户增长经验", "数据分析能力"]),
        Some(["制定运营策略", "策划用户活动", "提升用户活跃度"])),
      JobRecord("7", "Go后端开发", Some("快手科技"), "24K-42K", "北京",
        ["Go", "Kubernetes", "微服务"], "tech", "BOSS直聘",
        Some(["3年以上Go开发经验", "熟悉Kubernetes", "微服务架构经验"]),
        Some(["负责后端开发", "优化系统性能", "参与架构设计"])),
      JobRecord("8", "移动端开发工程师", Some("网易"), "20K-35K", "杭州",
        ["iOS", "Android", "Flutter"], "tech", "猎聘",
        Some(["2年以上移动端开发经验", "熟悉iOS或Android", "Flutter经验优先"]),
        Some(["负责移动端开发", "优化应用性能", "参与技术选型"])),
      JobRecord("9", "算法工程师", Some("百度"), "30K-60K", "北京",
        ["机器学习", "深度学习", "NLP"], "tech", "前程无忧",
        Some(["硕士及以上学历", "机器学习算法经验", "深度学习框架熟练"]),
        Some(["负责算法研发", "优化模型效果", "落地业务场景"])),
      JobRecord("10", "内容运营", Some("B站"), "15K-25K", "上海",
        ["内容策划", "短视频", "社区运营"], "运营", "BOSS直聘",
        Some(["2年以上运营经验", "内容策划能力", "社区运营经验"]),
        Some(["策划内容活动", "运营社区", "数据分析"])),
      JobRecord("11", "高级产品经理", Some("拼多多"), "28K-50K", "上海",
        ["B端产品", "供应链", "ERP"], "product", "猎聘",
        Some(["5年以上产品经验", "B端产品经验", "供应链领域经验"]),
        Some(["负责B端产品规划", "优化供应链系统", "提升业务效率"])),
      JobRecord("12", "DevOps工程师", Some("滴滴出行"), "22K-38K", "北京",
        ["Docker", "Jenkins", "CI/CD"], "tech", "前程无忧",
        Some(["3年以上DevOps经验", "熟悉CI/CD流程", "Docker和Kubernetes经验"]),
        Some(["负责CI/CD流程", "优化运维效率", "建设监控体系"])),
      JobRecord("13", "新媒体运营", Some("抖音"), "16K-26K", "北京",
        ["社交媒体", "内容营销", "直播运营"], "运营", "BOSS直聘",
        Some(["2年以上新媒体运营经验", "内容创作能力", "直播运营经验"]),
        Some(["运营社交媒体账号", "策划内容营销", "直播运营"])),
      JobRecord("14", "安全工程师", Some("华为"), "25K-45K", "深圳",
        ["网络安全", "渗透测试", "安全开发"], "tech", "猎聘",
        Some(["3年以上安全经验", "渗透测试能力", "安全开发经验"]),
        Some(["负责安全测试", "安全开发", "安全体系建设"])),
      JobRecord("15", "UI/UX设计师", Some("小米"), "18K-30K", "北京",
        ["Figma", "UI设计", "用户体验"], "product", "前程无忧",
        Some(["3年以上设计经验", "熟练使用Figma", "用户体验设计能力"]),
        Some(["负责产品设计", "优化用户体验", "设计规范制定"])),
      JobRecord("16", "大数据开发工程师", Some("蚂蚁集团"), "28K-50K", "杭州",
        ["Hadoop", "Spark", "Flink"], "tech", "BOSS直聘",
        Some(["3年以上大数据开发经验", "熟悉Hadoop生态", "Spark或Flink经验"]),
        Some(["负责大数据平台开发", "数据仓库建设", "实时计算开发"])),
      JobRecord("17", "SRE工程师", None, "25K-45K", "杭州",
        ["Linux", "Kubernetes", "监控"], "tech", "猎聘",
        Some(["3年以上SRE经验", "Linux系统精通", "Kubernetes经验"]),
        Some(["负责系统稳定性", "建设监控体系", "故障响应处理"])),
      JobRecord("18", "测试开发工程师", Some("Shopee"), "20K-35K", "深圳",
        ["自动化测试", "Selenium", "性能测试"], "tech", "前程无忧",
        Some(["2年以上测试开发经验", "自动化测试能力", "性能测试经验"]),
        Some(["负责自动化测试", "性能测试", "测试平台建设"])),
      JobRecord("19", "技术专家", Some("腾讯云"), "35K-60K", "深圳",
        ["云原生", "高并发", "架构设计"], "tech", "BOSS直聘",
        Some(["5年以上开发经验", "架构设计能力", "云原生技术熟练"]),
        Some(["负责架构设计", "技术难点攻关", "团队技术指导"])),
      JobRecord("20", "项目经理", Some("华为"), "20K-35K", "深圳",
        ["PMP", "敏捷开发", "团队管理"], "product", "猎聘",
        Some(["5年以上项目管理经验", "PMP认证", "敏捷开发经验"]),
        Some(["负责项目管理", "团队协调", "进度控制"]))
    ]
  }

  // ---------------------------------------------------------------------
  // search_jobs

  /** The position the search builds from a row whose company it has read. */
  function Position(job: JobRecord, company: String): (p: JobPosition)
    ensures p.id == job.id && p.title == job.title && p.company == company
    ensures p.url == "https://example.com/job/" + job.id && p.postedTime == "3天前"
  {
    JobPosition(job.id, job.title, company, job.salary, job.location, job.tags, job.category, job.source,
      job.requirements.GetOr([]), job.responsibilities.GetOr([]), "3天前", "https://example.com/job/" + job.id)
  }

  /** `keyword_lower in job['title'].lower()` */
  predicate InTitle(job: JobRecord, keywords: String) {
    Contains(Lower(job.title), Lower(keywords))
  }

  /** `keyword_lower in ' '.join(job['tags']).lower()` */
  predicate InTags(job: JobRecord, keywords: String) {
    Contains(Lower(Join(" ", job.tags)), Lower(keywords))
  }

  /** `location and location not in job['location']` fails the row. */
  predicate LocationOk(job: JobRecord, location: String) {
    location == "" || Contains(job.location, location)
  }

  /** The category test, skipped for an empty category or `all`. */
  predicate CategoryOk(job: JobRecord, category: String) {
    category == "" || category == "all" || job.category == category
  }

  /** A row the search keeps, for a row with a company. */
  predicate Matches(job: JobRecord, keywords: String, location: String, category: String) {
    (keywords == "" || InTitle(job, keywords)
      || (job.company.Some? && Contains(Lower(job.company.value), Lower(keywords))) || InTags(job, keywords))
    && LocationOk(job, location) && CategoryOk(job, category)
  }

  /** What one turn of the loop does with a row: raise, skip it, or append
    * its position. The company is read by the keyword test when the title
    * does not match, and again when the position is built. */
  function Visit(job: JobRecord, keywords: String, location: String, category: String)
    : (r: Result<Option<JobPosition>, Failure>)
    ensures r.Err? ==> r.error == KeyError("company") && job.company.None?
    ensures r.Ok? && r.value.Some? ==>
      && job.company.Some? && r.value.value == Position(job, job.company.value)
      && LocationOk(job, location) && CategoryOk(job, category)
  {
    if keywords != "" && !InTitle(job, keywords) && job.company.None? then Err(KeyError("company"))
    else if keywords != "" && !(InTitle(job, keywords) || Contains(Lower(job.company.value), Lower(keywords))
                                || InTags(job, keywords)) then Ok(None)
    else if !LocationOk(job, location) || !CategoryOk(job, category) then Ok(None)
    else if job.company.None? then Err(KeyError("company"))
    else Ok(Some(Position(job, job.company.value)))
  }

  /** A row raises exactly when it has no company and the loop reads it: the
    * keyword misses the title, or the row passes every filter. */
  lemma VisitFails(job: JobRecord, keywords: String, location: String, category: String)
    ensures Visit(job, keywords, location, category).Err? <==>
      job.company.None?
      && ((keywords != "" && !InTitle(job, keywords))
          || ((keywords == "" || InTitle(job, keywords)) && LocationOk(job, location) && CategoryOk(job, category)))
    ensures Visit(job, keywords, location, category) == Ok(None) <==>
      (job.company.Some? || keywords == "" || InTitle(job, keywords)) && !Matches(job, keywords, location, category)
    ensures Visit(job, keywords, location, category).Ok? && Visit(job, keywords, location, category).value.Some? <==>
      job.company.Some? && Matches(job, keywords, location, category)
  {
  }

  /** The loop of `search_jobs` before pagination, over a prefix of the table. */
  function Scan(db: seq<JobRecord>, keywords: String, location: String, category: String)
    : (r: Result<seq<JobPosition>, Failure>)
    ensures r.Err? ==> r.error == KeyError("company") && exists i :: 0 <= i < |db| && db[i].company.None?
    ensures r.Ok? ==> |r.value| <= |db|
  {
    if db == [] then Ok([])
    else
      match Scan(db[..|db| - 1], keywords, location, category)
      case Err(e) => Err(e)
      case Ok(rs) =>
        match Visit(db[|db| - 1], keywords, location, category)
        case Err(e) => Err(e)
        case Ok(None) => Ok(rs)
        case Ok(Some(p)) => Ok(rs + [p])
  }

  /** `search_jobs`: the kept positions in table order, then the page
    * `results[(page - 1) * limit : (page - 1) * limit + limit]`. */
  function Search(db: seq<JobRecord>, keywords: String, location: String, category: String, page: int, limit: int)
    : Result<seq<JobPosition>, Failure>
  {
    match Scan(db, keywords, location, category)
    case Err(e) => Err(e)
    case Ok(rs) =>
      var start := (page - 1) * limit;
      Ok(Slice(rs, start, start + limit))
  }

  lemma ScanSnoc(db: seq<JobRecord>, i: nat, keywords: String, location: String, category: String)
    requires i < |db|
    ensures Scan(db[..i + 1], keywords, location, category) ==
      match Scan(db[..i], keywords, location, category)
      case Err(e) => Err(e)
      case Ok(rs) =>
        match Visit(db[i], keywords, location, category)
        case Err(e) => Err(e)
        case Ok(None) => Ok(rs)
        case Ok(Some(p)) => Ok(rs + [p])
  {
    assert db[..i + 1][..i] == db[..i];
  }

  /** Once the loop has raised, the whole search raises the same way. */
  lemma {:induction false} ScanFailureSticks(db: seq<JobRecord>, i: nat, keywords: String, location: String, category: String)
    requires i <= |db| && Scan(db[..i], keywords, location, category).Err?
    ensures Scan(db, keywords, location, category) == Scan(db[..i], keywords, location, category)
    decreases |db| - i
  {
    if i == |db| {
      assert db[..i] == db;
    } else {
      ScanSnoc(db, i, keywords, location, category);
      ScanFailureSticks(db, i + 1, keywords, location, category);
    }
  }

  /** `MockJobClient.search_jobs` */
  method SearchJobs(db: seq<JobRecord>, keywords: String, location: String, category: String, page: int, limit: int)
    returns (r: Result<seq<JobPosition>, Failure>)
    ensures r == Search(db, keywords, location, category, page, limit)
  {
    var results: seq<JobPosition> := [];
    for i := 0 to |db|
      invariant Scan(db[..i], keywords, location, category) == Ok(results)
    {
      var job := db[i];
      ScanSnoc(db, i, keywords, location, category);
      if keywords != "" {
        var keywordLower := Lower(keywords);
        var found := Contains(Lower(job.title), keywordLower);
        if !found {
          if job.company.None? {
            ScanFailureSticks(db, i + 1, keywords, location, category);
            return Err(KeyError("company"));
          }
          found := Contains(Lower(job.company.value), keywordLower) || Contains(Lower(Join(" ", job.tags)), keywordLower);
        }
        if !found {
          continue;
        }
      }
      if location != "" && !Contains(job.location, location) {
        continue;
      }
      if category != "" && category != "all" && job.category != category {
        continue;
      }
      if job.company.None? {
        ScanFailureSticks(db, i + 1, keywords, location, category);
        return Err(KeyError("company"));
      }
      results := results + [Position(job, job.company.value)];
    }
    assert db[..|db|] == db;
    var start := (page - 1) * limit;
    r := Ok(Slice(results, start, start + limit));
  }

  /** The search raises `KeyError('company')` exactly when some row it
    * reaches raises. */
  lemma {:induction false} ScanFails(db: seq<JobRecord>, keywords: String, location: String, category: String)
    ensures Scan(db, keywords, location, category).Err? <==>
      exists i :: 0 <= i < |db| && Visit(db[i], keywords, location, category).Err?
    ensures Scan(db, keywords, location, category).Err? ==>
      Scan(db, keywords, location, category).error == KeyError("company")
    decreases |db|
  {
    if db != [] {
      var init := db[..|db| - 1];
      ScanFails(init, keywords, location, category);
      if Scan(init, keywords, location, category).Err? {
        var i :| 0 <= i < |init| && Visit(init[i], keywords, location, category).Err?;
        assert db[i] == init[i];
      } else if exists i :: 0 <= i < |db| && Visit(db[i], keywords, location, category).Err? {
        var i :| 0 <= i < |db| && Visit(db[i], keywords, location, category).Err?;
        if i < |init| {
          assert init[i] == db[i];
        }
      }
    }
  }

  /** `idx` lists, in increasing order, the rows whose positions make up
    * `rs`, one row for each position, and it lists every matching row. */
  predicate KeptRows(db: seq<JobRecord>, rs: seq<JobPosition>, idx: seq<int>,
                     keywords: String, location: String, category: String)
  {
    && |idx| == |rs|
    && (forall k :: 0 <= k < |idx| ==>
          && 0 <= idx[k] < |db| && db[idx[k]].company.Some? && Matches(db[idx[k]], keywords, location, category)
          && rs[k] == Position(db[idx[k]], db[idx[k]].company.value))
    && (forall k, l :: 0 <= k < l < |idx| ==> idx[k] < idx[l])
    && (forall i :: 0 <= i < |db| && Matches(db[i], keywords, location, category) ==> i in idx)
  }

  lemma KeptRowsSkip(init: seq<JobRecord>, last: JobRecord, rs: seq<JobPosition>, idx: seq<int>,
                     keywords: String, location: String, category: String)
    requires KeptRows(init, rs, idx, keywords, location, category) && !Matches(last, keywords, location, category)
    ensures KeptRows(init + [last], rs, idx, keywords, location, category)
  {
    var db := init + [last];
    forall k | 0 <= k < |idx|
      ensures db[idx[k]] == init[idx[k]]
    {
    }
  }

  lemma KeptRowsSnoc(init: seq<JobRecord>, last: JobRecord, rs: seq<JobPosition>, idx: seq<int>,
                     keywords: String, location: String, category: String)
    requires KeptRows(init, rs, idx, keywords, location, category)
    requires last.company.Some? && Matches(last, keywords, location, category)
    ensures KeptRows(init + [last], rs + [Position(last, last.company.value)], idx + [|init|], keywords, location, category)
  {
    var db := init + [last];
    forall k | 0 <= k < |idx|
      ensures db[idx[k]] == init[idx[k]]
    {
    }
  }

  /** The rows behind a search that does not raise. */
  lemma {:induction false} ScanRows(db: seq<JobRecord>, keywords: String, location: String, category: String)
    requires Scan(db, keywords, location, category).Ok?
    ensures exists idx :: KeptRows(db, Scan(db, keywords, location, category).value, idx, keywords, location, category)
    decreases |db|
  {
    if db == [] {
      assert KeptRows(db, [], [], keywords, location, category);
    } else {
      var init := db[..|db| - 1];
      var last := db[|db| - 1];
      assert db == init + [last];
      ScanRows(init, keywords, location, category);
      VisitFails(last, keywords, location, category);
      var rs0 := Scan(init, keywords, location, category).value;
      var idx0 :| KeptRows(init, rs0, idx0, keywords, location, category);
      if Visit(last, keywords, location, category) == Ok(None) {
        KeptRowsSkip(init, last, rs0, idx0, keywords, location, category);
      } else {
        KeptRowsSnoc(init, last, rs0, idx0, keywords, location, category);
      }
    }
  }

  /** A search that does not raise returns the positions of exactly the
    * matching rows, one per row and in table order. */
  lemma {:induction false} ScanKeeps(db: seq<JobRecord>, keywords: String, location: String, category: String)
    requires Scan(db, keywords, location, category).Ok?
    ensures var rs := Scan(db, keywords, location, category).value;
      |rs| <= |db|
      && (forall p :: p in rs <==>
           exists j :: j in db && j.company.Some? && Matches(j, keywords, location, category)
                       && p == Position(j, j.company.value))
      && exists idx :: KeptRows(db, rs, idx, keywords, location, category)
    decreases |db|
  {
    if db != [] {
      var init := db[..|db| - 1];
      var last := db[|db| - 1];
      ScanKeeps(init, keywords, location, category);
      VisitFails(last, keywords, location, category);
      assert db == init + [last];
      var rs := Scan(db, keywords, location, category).value;
      forall p
        ensures p in rs <==>
          exists j :: j in db && j.company.Some? && Matches(j, keywords, location, category)
                      && p == Position(j, j.company.value)
      {
        if p in rs && p !in Scan(init, keywords, location, category).value {
          assert last in db;
        }
        if exists j :: j in db && j.company.Some? && Matches(j, keywords, location, category)
                       && p == Position(j, j.company.value) {
          var j :| j in db && j.company.Some? && Matches(j, keywords, location, category)
                   && p == Position(j, j.company.value);
          if j != last {
            assert j in init;
          }
        }
      }
    }
    ScanRows(db, keywords, location, category);
  }

  /** For a page from 1 on and a non-negative limit, the result is the run
    * of at most `limit` kept positions that starts at `(page - 1) * limit`. */
  lemma PageOfResults(db: seq<JobRecord>, keywords: String, location: String, category: String, page: int, limit: int)
    requires page >= 1 && limit >= 0 && Scan(db, keywords, location, category).Ok?
    ensures var rs := Scan(db, keywords, location, category).value;
      var start := (page - 1) * limit;
      var from := if start <= |rs| then start else |rs|;
      var to := if start + limit <= |rs| then start + limit else |rs|;
      Search(db, keywords, location, category, page, limit) == Ok(rs[from..to])
      && to - from <= limit
  {
    var start := (page - 1) * limit;
    assert start >= 0 by {
      NonNegativeProduct(page - 1, limit);
    }
  }

  lemma NonNegativeProduct(a: int, b: int)
    requires a >= 0 && b >= 0
    ensures a * b >= 0
  {
  }

  /** Page 0 is always empty: its slice ends at index 0. */
  lemma PageZeroIsEmpty(db: seq<JobRecord>, keywords: String, location: String, category: String, limit: int)
    requires Scan(db, keywords, location, category).Ok?
    ensures Search(db, keywords, location, category, 0, limit) == Ok([])
  {
  }

  /** ASCII lower-casing is idempotent. */
  lemma LowerTwice(s: String)
    ensures Lower(Lower(s)) == Lower(s)
  {
  }

  /** The keyword is matched without regard to ASCII case. */
  lemma {:induction false} KeywordCaseIgnored(db: seq<JobRecord>, keywords: String, location: String, category: String)
    ensures Scan(db, Lower(keywords), location, category) == Scan(db, keywords, location, category)
    decreases |db|
  {
    LowerTwice(keywords);
    if db != [] {
      KeywordCaseIgnored(db[..|db| - 1], keywords, location, category);
      var job := db[|db| - 1];
      assert InTitle(job, Lower(keywords)) == InTitle(job, keywords);
      assert InTags(job, Lower(keywords)) == InTags(job, keywords);
      assert Visit(job, Lower(keywords), location, category) == Visit(job, keywords, location, category);
    }
  }

  // ---------------------------------------------------------------------
  // get_hot_jobs

  /** `get_hot_jobs`: the first page of sixteen, without filters. */
  function HotJobs(db: seq<JobRecord>): (r: Result<seq<JobPosition>, Failure>)
    ensures r.Ok? ==> |r.value| <= 16
  {
    Search(db, "", "", "", 1, 16)
  }

  /** Every row of a table has a company. */
  predicate Complete(db: seq<JobRecord>) {
    forall i :: 0 <= i < |db| ==> db[i].company.Some?
  }

  /** The positions of all rows of a complete table, in order. */
  function Positions(db: seq<JobRecord>): (r: seq<JobPosition>)
    requires Complete(db)
    ensures |r| == |db|
    ensures forall k :: 0 <= k < |db| ==> r[k] == Position(db[k], db[k].company.value)
  {
    if db == [] then [] else Positions(db[..|db| - 1]) + [Position(db[|db| - 1], db[|db| - 1].company.value)]
  }

  /** Without filters a complete table is kept whole, in order. */
  lemma {:induction false} ScanUnfiltered(db: seq<JobRecord>)
    requires Complete(db)
    ensures Scan(db, "", "", "") == Ok(Positions(db))
    decreases |db|
  {
    if db != [] {
      ScanUnfiltered(db[..|db| - 1]);
    }
  }

  /** A row without a company makes the unfiltered scan, and so
    * `get_hot_jobs`, raise. */
  lemma HotJobsFailOnGap(db: seq<JobRecord>, i: nat)
    requires i < |db| && db[i].company.None?
    ensures HotJobs(db) == Err(KeyError("company"))
  {
    ScanFails(db, "", "", "");
    assert Visit(db[i], "", "", "").Err?;
  }

  /** As written, row 17 has no `company`, so `get_hot_jobs` raises. */
  lemma HotJobsFailAsWritten()
    ensures Database()[16].id == "17" && Database()[16].company.None?
    ensures HotJobs(Database()) == Err(KeyError("company"))
  {
    HotJobsFailOnGap(Database(), 16);
  }

  /** The table with row 17's company under `company`, as the other rows
    * store it. */
  function CorrectedDatabase(): seq<JobRecord> {
    Database()[16 := Database()[16].(company := Some("阿里云"))]
  }

  /** With the corrected table, `get_hot_jobs` returns the first sixteen rows. */
  lemma HotJobsCorrected()
    ensures Complete(CorrectedDatabase())
    ensures HotJobs(CorrectedDatabase()).Ok? && |HotJobs(CorrectedDatabase()).value| == 16
    ensures forall k :: 0 <= k < 16 ==>
      HotJobs(CorrectedDatabase()).value[k] == Position(CorrectedDatabase()[k], CorrectedDatabase()[k].company.value)
  {
    var db := CorrectedDatabase();
    assert |db| == 20;
    assert Complete(db);
    ScanUnfiltered(db);
    PageOfResults(db, "", "", "", 1, 16);
  }
}
