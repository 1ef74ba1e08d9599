/** The exporter registry of the PDF renderer: the five templates by id, the
  * fallback to the modern template for an unknown id, and the list of
  * templates offered to the user. */
module PdfExporter {
  import opened Wrappers
  import opened Text
  import opened Resume
  import opened PdfElements
  import PdfModern
  import PdfBusiness
  import PdfCreative
  import PdfClassic
  import PdfCompact

  datatype Template = Modern | Business | Creative | Classic | Compact

  /** The registry key of each template. */
  function TemplateId(t: Template): String {
    match t
    case Modern => "modern"
    case Business => "business"
    case Creative => "creative"
    case Classic => "classic"
    case Compact => "compact"
  }

  /** `EXPORTERS.get(id)`: the template registered under `id`, if any. */
  function Lookup(id: String): (r: Option<Template>)
    ensures r.Some? ==> TemplateId(r.value) == id
    ensures r.None? <==> id !in {"modern", "business", "creative", "classic", "compact"}
  {
    if id == "modern" then Some(Modern)
    else if id == "business" then Some(Business)
    else if id == "creative" then Some(Creative)
    else if id == "classic" then Some(Classic)
    else if id == "compact" then Some(Compact)
    else None
  }

  /** Every template is registered under its own id, so the registry holds
    * exactly the five templates. */
  lemma RegistryComplete(t: Template)
    ensures Lookup(TemplateId(t)) == Some(t)
  {
  }

  /** `EXPORTERS.get(template, EXPORTERS['modern'])` */
  function ExporterFor(id: String): (t: Template)
    ensures Lookup(id).Some? ==> TemplateId(t) == id
    ensures Lookup(id).None? ==> t == Modern
  {
    Lookup(id).GetOr(Modern)
  }

  /** The elements the chosen exporter lays out for `export_resume` and
    * `export_resume_to_bytes`. */
  function Story(id: String, r: Record): seq<Element> {
    match ExporterFor(id)
    case Modern => PdfModern.Content(r)
    case Business => PdfBusiness.Content(r)
    case Creative => PdfCreative.Content(r)
    case Classic => PdfClassic.Content(r)
    case Compact => PdfCompact.Content(r)
  }

  /** `export_resume_to_bytes` up to the layout: picks the exporter and runs
    * its `build_content`. */
  method ExportStory(id: String, r: Record) returns (story: seq<Element>)
    ensures story == Story(id, r)
  {
    var t := ExporterFor(id);
    match t {
      case Modern => story := PdfModern.BuildContent(r);
      case Business => story := PdfBusiness.BuildContent(r);
      case Creative => story := PdfCreative.BuildContent(r);
      case Classic => story := PdfClassic.BuildContent(r);
      case Compact => story := PdfCompact.BuildContent(r);
    }
  }

  /** An id the registry does not know renders exactly as the modern template. */
  lemma UnknownIdRendersModern(id: String, r: Record)
    requires id !in {"modern", "business", "creative", "classic", "compact"}
    ensures Story(id, r) == Story("modern", r)
  {
  }

  datatype TemplateInfo = TemplateInfo(id: String, name: String, description: String, preview: String)

  /** The entry `get_available_templates` lists for each template. */
  function Describe(t: Template): (info: TemplateInfo)
    ensures info.id == TemplateId(t) && info.preview == TemplateId(t)
  {
    match t
    case Modern => TemplateInfo("modern", "现代简约", "清新简洁的设计，适合技术岗位", "modern")
    case Business => TemplateInfo("business", "商务专业", "经典稳重的设计，适合投行/咨询", "business")
    case Creative => TemplateInfo("creative", "创意设计", "突出个性的设计，适合设计/产品", "creative")
    case Classic => TemplateInfo("classic", "经典传统", "正式稳重风格，适合外企/国企", "classic")
    case Compact => TemplateInfo("compact", "紧凑简洁", "信息密度高，适合经历丰富者", "compact")
  }

  /** `get_available_templates` */
  function AvailableTemplates(): seq<TemplateInfo> {
    [Describe(Modern), Describe(Business), Describe(Creative), Describe(Classic), Describe(Compact)]
  }

  /** The position of a template in the registry. */
  function Rank(t: Template): (k: nat)
    ensures k < 5
  {
    match t
    case Modern => 0
    case Business => 1
    case Creative => 2
    case Classic => 3
    case Compact => 4
  }

  /** The template at a position of the registry. */
  function AtRank(k: nat): (t: Template)
    requires k < 5
    ensures Rank(t) == k
  {
    if k == 0 then Modern
    else if k == 1 then Business
    else if k == 2 then Creative
    else if k == 3 then Classic
    else Compact
  }

  /** The offered templates are the registered ones, each once, in registry
    * order, and each previews under its own id. */
  lemma AvailableTemplatesMatchRegistry()
    ensures |AvailableTemplates()| == 5
    ensures forall k :: 0 <= k < 5 ==>
      Lookup(AvailableTemplates()[k].id).Some? && AvailableTemplates()[k].preview == AvailableTemplates()[k].id
    ensures forall t: Template :: AvailableTemplates()[Rank(t)].id == TemplateId(t)
    ensures forall j, k :: 0 <= j < k < 5 ==> AvailableTemplates()[j].id != AvailableTemplates()[k].id
  {
    var ts := AvailableTemplates();
    forall k | 0 <= k < 5
      ensures ts[k] == Describe(AtRank(k))
    {
    }
    forall k | 0 <= k < 5
      ensures Lookup(ts[k].id) == Some(AtRank(k))
    {
      RegistryComplete(AtRank(k));
    }
  }
}
