/** The decisions the Flask handlers of `app.py` take around the core: upload
  * validation and the stored résumé row, the text preview, the export
  * template and record, key masking, saving and resetting the API settings,
  * and the order in which a résumé's rows are deleted. Routing, SQL and file
  * storage are replaced by the `Database` class and by parameters. */
module AppRoutes {
  import opened Wrappers
  import opened Text
  import opened Json
  import opened Config
  import opened FileParser
  import opened AiClient
  import PdfExporter

  // ---------------------------------------------------------------------
  // Tables

  /** A row of `resumes`; `skills` is kept as the list `json.dumps` wrote. */
  datatype ResumeRow = ResumeRow(
    id: int, filename: String, fileType: String, rawText: String, parsedData: String, skills: seq<String>)

  /** A row of `job_descriptions`. */
  datatype JdRow = JdRow(id: int, title: String, company: String, rawText: String, resumeId: Option<int>)

  /** A row of `analysis_results`. */
  datatype AnalysisRow = AnalysisRow(
    id: int, resumeId: Option<int>, jdId: Option<int>, resultType: String, resultData: String)

  /** The rows of `rows` that `keep` accepts, in order. */
  function Filter<T(!new)>(rows: seq<T>, keep: T -> bool): (r: seq<T>)
    ensures |r| <= |rows|
    ensures forall x :: x in r <==> x in rows && keep(x)
  {
    if rows == [] then []
    else if keep(rows[0]) then [rows[0]] + Filter(rows[1..], keep)
    else Filter(rows[1..], keep)
  }

  predicate HasResume(resumes: seq<ResumeRow>, id: int) {
    exists r :: r in resumes && r.id == id
  }

  predicate HasJd(jds: seq<JdRow>, id: int) {
    exists j :: j in jds && j.id == id
  }

  /** The foreign keys of the schema hold: every reference names an existing
    * row. */
  predicate Referenced(resumes: seq<ResumeRow>, jds: seq<JdRow>, analyses: seq<AnalysisRow>) {
    && (forall j :: j in jds && j.resumeId.Some? ==> HasResume(resumes, j.resumeId.value))
    && (forall a :: a in analyses && a.resumeId.Some? ==> HasResume(resumes, a.resumeId.value))
    && (forall a :: a in analyses && a.jdId.Some? ==> HasJd(jds, a.jdId.value))
  }

  /** An analysis made against a job description belongs to the same résumé
    * as that job description. */
  predicate Aligned(jds: seq<JdRow>, analyses: seq<AnalysisRow>) {
    forall a, j :: a in analyses && j in jds && a.jdId == Some(j.id) ==> a.resumeId == j.resumeId
  }

  function NotOfAnalysis(id: int): AnalysisRow -> bool { (a: AnalysisRow) => a.resumeId != Some(id) }
  function NotOfJd(id: int): JdRow -> bool { (j: JdRow) => j.resumeId != Some(id) }
  function NotResume(id: int): ResumeRow -> bool { (r: ResumeRow) => r.id != id }

  /** Deleting the analyses, then the job descriptions, then the résumé
    * leaves no dangling reference after any of the three statements. */
  lemma DeleteOrderKeepsReferences(resumes: seq<ResumeRow>, jds: seq<JdRow>, analyses: seq<AnalysisRow>, id: int)
    requires Referenced(resumes, jds, analyses) && Aligned(jds, analyses)
    requires forall r, s :: r in resumes && s in resumes && r.id == s.id ==> r == s
    ensures var a1 := Filter(analyses, NotOfAnalysis(id));
      var j1 := Filter(jds, NotOfJd(id));
      var r1 := Filter(resumes, NotResume(id));
      && Referenced(resumes, jds, a1)
      && Referenced(resumes, j1, a1)
      && Referenced(r1, j1, a1)
  {
    var a1 := Filter(analyses, NotOfAnalysis(id));
    var j1 := Filter(jds, NotOfJd(id));
    var r1 := Filter(resumes, NotResume(id));
    forall a | a in a1 && a.jdId.Some?
      ensures HasJd(j1, a.jdId.value)
    {
      var j :| j in jds && j.id == a.jdId.value;
      assert a.resumeId == j.resumeId;
      assert j in j1;
    }
    forall j | j in j1 && j.resumeId.Some?
      ensures HasResume(r1, j.resumeId.value)
    {
      var r :| r in resumes && r.id == j.resumeId.value;
      assert r in r1;
    }
    forall a | a in a1 && a.resumeId.Some?
      ensures HasResume(r1, a.resumeId.value)
    {
      var r :| r in resumes && r.id == a.resumeId.value;
      assert r in r1;
    }
  }

  /** Deleting the résumé first would leave its job description pointing at
    * a missing row. */
  lemma ResumeFirstWouldDangle()
    ensures var resumes := [ResumeRow(1, "a.txt", "txt", "", "", [])];
      var jds := [JdRow(1, "", "", "", Some(1))];
      Referenced(resumes, jds, []) && !Referenced(Filter(resumes, NotResume(1)), jds, [])
  {
    var resumes := [ResumeRow(1, "a.txt", "txt", "", "", [])];
    var jds := [JdRow(1, "", "", "", Some(1))];
    assert resumes[0] in resumes;
    var r1 := Filter(resumes, NotResume(1));
    assert r1 == [];
    assert jds[0] in jds;
  }

  /** `rsplit('.', 1)[-1]`: the text after the last '.', or the whole name. */
  function FileType(filename: String): (t: String)
    ensures '.' !in t
    ensures '.' !in filename ==> t == filename
  {
    if '.' in filename then Suffix(filename) else filename
  }

  /** `rsplit('.', 1)[0]`: the name without its last extension. */
  function Stem(filename: String): (t: String)
    ensures '.' !in filename ==> t == filename
    ensures '.' in filename ==> t + "." + FileType(filename) == filename
  {
    if '.' in filename then
      var i := LastIndexOfChar(filename, '.');
      assert filename == filename[..i] + "." + filename[i + 1..];
      filename[..i]
    else filename
  }

  /** `raw_text[:500] + '...'` for a text over 500 characters, else the text. */
  function TextPreview(raw: String): (p: String)
    ensures |raw| <= 500 ==> p == raw
    ensures |raw| > 500 ==> |p| == 503 && p[..500] == raw[..500] && p[500..] == "..."
  {
    if |raw| > 500 then raw[..500] + "..." else raw
  }

  /** What a successful upload answers. */
  datatype UploadReply = UploadReply(resumeId: int, filename: String, skills: seq<String>, textPreview: String)

  /** The upload checks that come before anything is saved: the form part,
    * a file name, and an allowed extension. `upload` is the file name of
    * the `file` part, absent when there is no such part. */
  function UploadCheck(upload: Option<String>): (r: Result<String, String>)
    ensures r.Ok? <==> upload.Some? && AllowedFile(upload.value)
    ensures r.Ok? ==> r.value == upload.value
    ensures upload.None? ==> r == Err("没有上传文件")
    ensures upload.Some? && upload.value == "" ==> r == Err("没有选择文件")
    ensures upload.Some? && upload.value != "" && !AllowedFile(upload.value) ==> r == Err("不支持的文件格式")
  {
    match upload
    case None => Err("没有上传文件")
    case Some(name) =>
      if name == "" then Err("没有选择文件")
      else if !AllowedFile(name) then Err("不支持的文件格式")
      else Ok(name)
  }

  // ---------------------------------------------------------------------
  // The database

  /** The three tables, with `AUTOINCREMENT`'s next résumé id. */
  class Database {
    var resumes: seq<ResumeRow>
    var jobDescriptions: seq<JdRow>
    var analysisResults: seq<AnalysisRow>
    var nextResumeId: int

    constructor ()
      ensures resumes == [] && jobDescriptions == [] && analysisResults == [] && nextResumeId == 1
    {
      resumes, jobDescriptions, analysisResults, nextResumeId := [], [], [], 1;
    }

    /** `upload_resume`: the checks, the text extraction, and the inserted
      * row. `secure` is `secure_filename`, `extract` what each extractor
      * yields for the saved file, and `parsedData` the structured data
      * stored beside the text. Only a successful upload inserts a row. */
    method UploadResume(upload: Option<String>, secure: String -> String,
                        extract: Extractor -> Option<String>, parsedData: String)
      returns (r: Result<UploadReply, String>)
      modifies this
      ensures UploadCheck(upload).Err? ==> r == Err(UploadCheck(upload).error)
      ensures UploadCheck(upload).Ok? && Strip(ParseResume(secure(upload.value), extract)) == [] ==>
        r == Err("无法解析文件内容，请尝试其他格式")
      ensures r.Err? ==> resumes == old(resumes) && nextResumeId == old(nextResumeId)
      ensures r.Ok? ==>
        && UploadCheck(upload).Ok?
        && var name := secure(upload.value);
           var raw := ParseResume(name, extract);
           && Strip(raw) != []
           && r.value.resumeId == old(nextResumeId)
           && r.value.filename == name
           && r.value.textPreview == TextPreview(raw)
           && (forall k :: k in r.value.skills <==> k in SkillSet(raw))
           && resumes == old(resumes) + [ResumeRow(old(nextResumeId), name, FileType(name), raw, parsedData, r.value.skills)]
           && nextResumeId == old(nextResumeId) + 1
      ensures jobDescriptions == old(jobDescriptions) && analysisResults == old(analysisResults)
    {
      var check := UploadCheck(upload);
      if check.Err? {
        return Err(check.error);
      }
      var name := secure(check.value);
      var raw := ParseResume(name, extract);
      if Strip(raw) == [] {
        return Err("无法解析文件内容，请尝试其他格式");
      }
      var skills := ExtractSkills(raw);
      var id := nextResumeId;
      resumes := resumes + [ResumeRow(id, name, FileType(name), raw, parsedData, skills)];
      nextResumeId := nextResumeId + 1;
      r := Ok(UploadReply(id, name, skills, TextPreview(raw)));
    }

    /** `delete_resume`: the résumé's analyses, then its job descriptions,
      * then the résumé itself. */
    method DeleteResume(id: int)
      modifies this
      ensures analysisResults == Filter(old(analysisResults), NotOfAnalysis(id))
      ensures jobDescriptions == Filter(old(jobDescriptions), NotOfJd(id))
      ensures resumes == Filter(old(resumes), NotResume(id))
      ensures nextResumeId == old(nextResumeId)
    {
      analysisResults := Filter(analysisResults, NotOfAnalysis(id));
      jobDescriptions := Filter(jobDescriptions, NotOfJd(id));
      resumes := Filter(resumes, NotResume(id));
    }

    /** `SELECT * FROM resumes WHERE id = ?` */
    function FindResume(id: int): (r: Option<ResumeRow>)
      reads this
      ensures r.Some? ==> r.value in resumes && r.value.id == id
      ensures r.None? ==> !HasResume(resumes, id)
    {
      FirstWithId(resumes, id)
    }
  }

  function FirstWithId(rows: seq<ResumeRow>, id: int): (r: Option<ResumeRow>)
    ensures r.Some? ==> r.value in rows && r.value.id == id
    ensures r.None? ==> !HasResume(rows, id)
  {
    if rows == [] then None
    else if rows[0].id == id then Some(rows[0])
    else FirstWithId(rows[1..], id)
  }

  // ---------------------------------------------------------------------
  // Export

  /** The templates the export route lets through. */
  const ExportTemplates: seq<String> := ["modern", "business", "creative"]

  /** `data.get('template', 'modern')`, replaced by `modern` when it is not
    * one of the three. */
  function ExportTemplate(requested: Option<Json>): (t: String)
    ensures t in ExportTemplates
    ensures requested.Some? && requested.value.JStr? && requested.value.s in ExportTemplates ==> t == requested.value.s
  {
    if requested.Some? && requested.value.JStr? && requested.value.s in ExportTemplates then requested.value.s
    else "modern"
  }

  /** Through this route the classic and compact templates are never used. */
  lemma ExportNeverClassicOrCompact(requested: Option<Json>)
    ensures PdfExporter.ExporterFor(ExportTemplate(requested)) in {PdfExporter.Modern, PdfExporter.Business, PdfExporter.Creative}
    ensures ExportTemplate(Some(JStr("classic"))) == "modern" && ExportTemplate(Some(JStr("compact"))) == "modern"
  {
  }

  /** The record `export_resume` starts from before the stored data. */
  function ExportDefaults(row: ResumeRow): (d: map<String, Json>)
    ensures d.Keys == {"name", "skills", "work_experience", "project_experience", "education",
                       "certificates", "awards", "self_introduction"}
    ensures d["name"] == JStr(Stem(row.filename))
  {
    map[
      "name" := JStr(Stem(row.filename)),
      "skills" := Strings(row.skills),
      "work_experience" := JArr([]),
      "project_experience" := JArr([]),
      "education" := JArr([]),
      "certificates" := JArr([]),
      "awards" := JArr([]),
      "self_introduction" := JStr("")]
  }

  /** `str(e)` of the `ValueError` `dict.update` raises for an element of
    * the wrong length. */
  function LengthError(n: nat, len: nat): String {
    "dictionary update sequence element #" + NatToString(n) + " has length " + NatToString(len) + "; 2 is required"
  }

  /** What `dict.update` reads from element `n` of a sequence argument: a key
    * and a value, `None` for a pair whose key is a number, a boolean or
    * `None` (kept by Python under that key, which nothing here reads), or the
    * message of the error it raises. */
  function UpdatePair(e: Json, n: nat): (r: Result<Option<(String, Json)>, String>)
    ensures r.Ok? && r.value.Some? ==>
      (e.JStr? && |e.s| == 2 && r.value.value == ([e.s[0]], JStr([e.s[1]])))
      || (e.JArr? && |e.items| == 2 && e.items[0] == JStr(r.value.value.0) && r.value.value.1 == e.items[1])
    ensures e.JInt? || e.JBool? || e.JNull? ==> r.Err?
  {
    match e
    case JStr(s) => if |s| == 2 then Ok(Some(([s[0]], JStr([s[1]])))) else Err(LengthError(n, |s|))
    case JArr(xs) =>
      if |xs| != 2 then Err(LengthError(n, |xs|))
      else (match xs[0]
        case JStr(k) => Ok(Some((k, xs[1])))
        case JArr(_) => Err("unhashable type: 'list'")
        case JObj(_) => Err("unhashable type: 'dict'")
        case _ => Ok(None))
    case JObj(m) =>
      if |m.Keys| != 2 then Err(LengthError(n, |m.Keys|))
      else Err("a two-key object as a pair: key order is not modelled")
    case _ => Err("cannot convert dictionary update sequence element #" + NatToString(n) + " to a sequence")
  }

  /** `d.update(items)` for a list: the pairs are stored left to right, so a
    * later pair with the same key wins; the first bad element raises. */
  function UpdatePairs(d: map<String, Json>, items: seq<Json>, n: nat): (r: Result<map<String, Json>, String>)
    ensures r.Ok? ==> r.value.Keys >= d.Keys
    decreases |items|
  {
    if items == [] then Ok(d)
    else match UpdatePair(items[0], n)
      case Err(e) => Err(e)
      case Ok(None) => UpdatePairs(d, items[1..], n + 1)
      case Ok(Some(kv)) => UpdatePairs(d[kv.0 := kv.1], items[1..], n + 1)
  }

  /** `d.update(v)` for a decoded JSON value `v`: an object overrides key by
    * key, a list or a string is read as a sequence of pairs, and a number,
    * a boolean or `null` is not iterable. */
  function Update(d: map<String, Json>, v: Json): (r: Result<map<String, Json>, String>)
    ensures v.JObj? ==> r == Ok(d + v.fields)
    ensures v == JArr([]) || v == JStr("") ==> r == Ok(d)
    ensures v.JInt? || v.JBool? || v.JNull? ==> r.Err?
    ensures v.JStr? && v.s != [] ==> r.Err?
    ensures r.Ok? ==> r.value.Keys >= d.Keys
  {
    match v
    case JObj(m) => Ok(d + m)
    case JArr(items) => UpdatePairs(d, items, 0)
    case JStr(s) => if s == [] then Ok(d) else Err(LengthError(0, 1))
    case JInt(_) => Err("'int' object is not iterable")
    case JBool(_) => Err("'bool' object is not iterable")
    case JNull => Err("'NoneType' object is not iterable")
  }

  /** A pair list `[key, value]` with a string key. */
  predicate IsStringPair(e: Json) {
    e.JArr? && |e.items| == 2 && e.items[0].JStr?
  }

  function PairKey(e: Json): String {
    if IsStringPair(e) then e.items[0].s else ""
  }

  function PairValue(e: Json): Json {
    if IsStringPair(e) then e.items[1] else JNull
  }

  /** No pair after the `j`-th has the same key. */
  predicate LastPairFor(items: seq<Json>, j: int) {
    0 <= j < |items| && forall j' :: j < j' < |items| ==> PairKey(items[j']) != PairKey(items[j])
  }

  /** A list of `[key, value]` pairs with string keys never raises, each key
    * ends up with the value of its last pair, and the other keys keep their
    * values. */
  lemma {:induction false} PairListLastWins(d: map<String, Json>, items: seq<Json>, n: nat)
    requires forall j :: 0 <= j < |items| ==> IsStringPair(items[j])
    ensures UpdatePairs(d, items, n).Ok?
    ensures forall j :: LastPairFor(items, j) ==>
      && PairKey(items[j]) in UpdatePairs(d, items, n).value
      && UpdatePairs(d, items, n).value[PairKey(items[j])] == PairValue(items[j])
    ensures forall key :: key in d && (forall j :: 0 <= j < |items| ==> PairKey(items[j]) != key) ==>
      UpdatePairs(d, items, n).value[key] == d[key]
    decreases |items|
  {
    if items != [] {
      var k := PairKey(items[0]);
      var d' := d[k := PairValue(items[0])];
      var rest := items[1..];
      assert UpdatePairs(d, items, n) == UpdatePairs(d', rest, n + 1);
      PairListLastWins(d', rest, n + 1);
      var r := UpdatePairs(d, items, n).value;
      forall j | LastPairFor(items, j)
        ensures PairKey(items[j]) in r && r[PairKey(items[j])] == PairValue(items[j])
      {
        if j > 0 {
          assert rest[j - 1] == items[j];
          assert LastPairFor(rest, j - 1) by {
            forall j' | j - 1 < j' < |rest| ensures PairKey(rest[j']) != PairKey(rest[j - 1]) {
              assert rest[j'] == items[j' + 1];
            }
          }
        } else {
          assert forall j' :: 0 <= j' < |rest| ==> PairKey(rest[j']) != k by {
            forall j' | 0 <= j' < |rest| ensures PairKey(rest[j']) != k {
              assert rest[j'] == items[j' + 1];
            }
          }
        }
      }
      forall key | key in d && (forall j :: 0 <= j < |items| ==> PairKey(items[j]) != key)
        ensures r[key] == d[key]
      {
        assert PairKey(items[0]) != key;
        assert forall j :: 0 <= j < |rest| ==> PairKey(rest[j]) != key by {
          forall j | 0 <= j < |rest| ensures PairKey(rest[j]) != key {
            assert rest[j] == items[j + 1];
          }
        }
      }
    }
  }

  /** The record handed to the PDF exporter: the defaults, updated by the
    * stored data as `dict.update` does; data that does not decode leaves
    * the defaults. */
  function ExportRecord(row: ResumeRow, decode: String -> Option<Json>): (r: Result<map<String, Json>, String>)
    ensures row.parsedData == [] || decode(row.parsedData).None? ==> r == Ok(ExportDefaults(row))
    ensures row.parsedData != [] && decode(row.parsedData).Some? ==> r == Update(ExportDefaults(row), decode(row.parsedData).value)
    ensures r.Ok? ==> r.value.Keys >= ExportDefaults(row).Keys
  {
    if row.parsedData == [] then Ok(ExportDefaults(row))
    else match decode(row.parsedData)
      case None => Ok(ExportDefaults(row))
      case Some(v) => Update(ExportDefaults(row), v)
  }

  /** Stored data wins key by key; keys it does not have keep the default. */
  lemma StoredDataOverridesDefaults(row: ResumeRow, decode: String -> Option<Json>, key: String)
    requires row.parsedData != [] && decode(row.parsedData).Some? && decode(row.parsedData).value.JObj?
    requires key in ExportDefaults(row) || key in decode(row.parsedData).value.fields
    ensures var parsed := decode(row.parsedData).value.fields;
      ExportRecord(row, decode).Ok? &&
      ExportRecord(row, decode).value[key] == if key in parsed then parsed[key] else ExportDefaults(row)[key]
  {
    var parsed := decode(row.parsedData).value.fields;
    assert ExportRecord(row, decode) == Ok(ExportDefaults(row) + parsed);
    MergeLookup(ExportDefaults(row), parsed, key);
  }

  /** A key of a merged map comes from the right-hand map when it has it. */
  lemma MergeLookup<V>(d: map<String, V>, m: map<String, V>, key: String)
    requires key in d || key in m
    ensures key in d + m && (d + m)[key] == if key in m then m[key] else d[key]
  {
  }

  /** What the export route sends: the template, the record and the file name. */
  datatype ExportJob = ExportJob(template: String, record: map<String, Json>, downloadName: String)

  /** `export_resume` up to rendering. */
  function ExportResume(id: int, row: Option<ResumeRow>, body: Option<map<String, Json>>,
                        decode: String -> Option<Json>): (r: Result<ExportJob, String>)
    ensures row.None? ==> r == Err("简历不存在")
    ensures r.Ok? ==> r.value.template in ExportTemplates
    ensures r.Ok? ==> r.value.downloadName == "resume_" + IntToString(id) + "_" + r.value.template + ".pdf"
    ensures var requested := if body.Some? && "template" in body.value then Some(body.value["template"]) else None;
      r.Ok? ==> r.value.template == ExportTemplate(requested)
    ensures row.Some? ==> (r.Ok? <==> ExportRecord(row.value, decode).Ok?)
    ensures r.Ok? ==> r.value.record == ExportRecord(row.value, decode).value
    ensures row.Some? && r.Err? ==> r.error == ExportRecord(row.value, decode).error
  {
    if row.None? then Err("简历不存在")
    else
      var data := if body.Some? then body.value else map[];
      var template := ExportTemplate(if "template" in data then Some(data["template"]) else None);
      match ExportRecord(row.value, decode)
      case Err(e) => Err(e)
      case Ok(record) => Ok(ExportJob(template, record, "resume_" + IntToString(id) + "_" + template + ".pdf"))
  }

  // ---------------------------------------------------------------------
  // API settings

  /** `api_key[:10] + '****'`, or '' for an empty key. */
  function MaskKey(key: String): (m: String)
    ensures key == [] <==> m == []
    ensures key != [] ==> m == Take(key, 10) + "****"
  {
    if key == [] then [] else Take(key, 10) + "****"
  }

  /** The mask shows at most the first ten characters: keys that agree there
    * mask alike, whatever follows. */
  lemma MaskShowsOnlyPrefix(k1: String, k2: String)
    requires k1 != [] && k2 != [] && Take(k1, 10) == Take(k2, 10)
    ensures MaskKey(k1) == MaskKey(k2)
    ensures |MaskKey(k1)| <= 14
  {
  }

  /** `get_api_config_info` */
  datatype ConfigInfo = ConfigInfo(apiBaseUrl: String, apiKeyMasked: String, modelName: String, providerName: String, isCustom: bool)

  function ConfigInfoOf(c: ApiConfig): (r: ConfigInfo)
    ensures r.apiKeyMasked == MaskKey(c.apiKey) && r.isCustom == c.isCustom
    ensures r.apiBaseUrl == c.apiBaseUrl && r.modelName == c.modelName && r.providerName == c.providerName
  {
    ConfigInfo(c.apiBaseUrl, MaskKey(c.apiKey), c.modelName, c.providerName, c.isCustom)
  }

  /** The provider name a saved configuration gets when none is given. */
  const CustomProviderName: String := "自定义API"

  /** `data.get(key, '').strip()` */
  function Field(data: map<String, String>, key: String): String {
    Strip(Get(data, key, ""))
  }

  /** The settings `save_api_config` would store: the stripped fields, an
    * empty base URL, model or provider replaced by its default; an empty key
    * is refused. */
  function SettingsToSave(data: map<String, String>): (r: Result<UserConfig, String>)
    ensures r.Err? <==> Field(data, "api_key") == []
    ensures r.Err? ==> r.error == "请输入API Key"
    ensures r.Ok? ==>
      && r.value.Keys == {"api_key", "api_base_url", "model_name", "provider_name"}
      && r.value["api_key"] == Field(data, "api_key") != []
      && (Field(data, "api_base_url") != [] ==> r.value["api_base_url"] == Field(data, "api_base_url"))
      && (Field(data, "api_base_url") == [] ==> r.value["api_base_url"] == DefaultApiBaseUrl)
      && (Field(data, "model_name") != [] ==> r.value["model_name"] == Field(data, "model_name"))
      && (Field(data, "model_name") == [] ==> r.value["model_name"] == DefaultModelName)
      && (Field(data, "provider_name") != [] ==> r.value["provider_name"] == Field(data, "provider_name"))
      && (Field(data, "provider_name") == [] ==> r.value["provider_name"] == CustomProviderName)
  {
    var key := Field(data, "api_key");
    var url := if Field(data, "api_base_url") != [] then Field(data, "api_base_url") else DefaultApiBaseUrl;
    var model := if Field(data, "model_name") != [] then Field(data, "model_name") else DefaultModelName;
    var provider := if Field(data, "provider_name") != [] then Field(data, "provider_name") else CustomProviderName;
    if key == [] then Err("请输入API Key")
    else Ok(Settings(key, url, model, provider))
  }

  /** The four stored settings under their keys. */
  function Settings(key: String, url: String, model: String, provider: String): (c: UserConfig)
    ensures c.Keys == {"api_key", "api_base_url", "model_name", "provider_name"}
    ensures c["api_key"] == key && c["api_base_url"] == url
    ensures c["model_name"] == model && c["provider_name"] == provider
  {
    map["api_key" := key, "api_base_url" := url, "model_name" := model, "provider_name" := provider]
  }

  /** Saved settings are used as they were saved: the next `get_api_config`
    * is the custom configuration with no empty field. */
  lemma SavedSettingsTakeEffect(data: map<String, String>, envKey: Option<String>)
    requires SettingsToSave(data).Ok?
    ensures var c := GetApiConfig(Stored(SettingsToSave(data).value), envKey);
      && c.isCustom && c.apiKey == Field(data, "api_key")
      && c.apiBaseUrl != [] && c.modelName != [] && c.providerName != []
  {
  }

  /** `save_api_config`: checks the key, tests it (`testOk`, `testMessage`),
    * writes the file and then refreshes the shared client with what
    * `get_api_config` now returns. */
  method SaveApiConfig(store: ConfigStore, slot: ClientSlot, data: map<String, String>,
                       testOk: bool, testMessage: String, outcome: WriteOutcome, envKey: Option<String>)
    returns (r: Result<String, String>)
    requires slot.Valid()
    modifies store, slot, slot.stats, if slot.client.Some? then {slot.client.value} else {}
    ensures SettingsToSave(data).Err? ==> r == Err("请输入API Key") && store.file == old(store.file)
    ensures SettingsToSave(data).Ok? && !testOk ==> r == Err("API Key测试失败: " + testMessage) && store.file == old(store.file)
    ensures SettingsToSave(data).Ok? && testOk && outcome != Written ==> r == Err("保存配置失败")
    ensures r.Ok? <==> SettingsToSave(data).Ok? && testOk && outcome == Written
    ensures r.Ok? ==>
      && r.value == "API配置已保存并生效" && store.file == Stored(SettingsToSave(data).value)
      && slot.client.Some? && slot.client.value.apiConfig == GetApiConfig(store.file, envKey)
      && slot.client.value.apiConfig.isCustom
  {
    var settings := SettingsToSave(data);
    if settings.Err? {
      return Err(settings.error);
    }
    if !testOk {
      return Err("API Key测试失败: " + testMessage);
    }
    var saved := store.Save(settings.value, outcome);
    if !saved {
      return Err("保存配置失败");
    }
    var _ := slot.GetAiClient(GetApiConfig(store.file, envKey));
    r := Ok("API配置已保存并生效");
  }

  /** The settings `reset_api_config` writes back: the stored object without
    * the four API keys. */
  function WithoutApiSettings(user: UserConfig): (r: UserConfig)
    ensures r.Keys == user.Keys - {"api_key", "api_base_url", "model_name", "provider_name"}
    ensures forall k :: k in r ==> r[k] == user[k]
  {
    user - {"api_key", "api_base_url", "model_name", "provider_name"}
  }

  /** After a reset is written, the defaults are in force again. */
  lemma ResetRestoresDefaults(f: ConfigFile, envKey: Option<String>)
    ensures GetApiConfig(Stored(WithoutApiSettings(LoadUserConfig(f))), envKey) == DefaultApiConfig(envKey)
  {
    NoSavedKeyUsesDefaults(Stored(WithoutApiSettings(LoadUserConfig(f))), envKey);
  }
}
