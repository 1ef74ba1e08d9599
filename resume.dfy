/** The resume record that the exporters, the comparator and the export route
  * read with `dict.get(key, default)`. Every field is optional: `None` is a
  * missing key, and reading a field applies the default the source uses
  * ('' for text, [] for lists). */
module Resume {
  import opened Wrappers
  import opened Text

  datatype WorkEntry = WorkEntry(
    company: Option<String>,
    position: Option<String>,
    startDate: Option<String>,
    endDate: Option<String>,
    description: Option<String>,
    achievements: Option<seq<String>>)

  datatype ProjectEntry = ProjectEntry(
    name: Option<String>,
    role: Option<String>,
    startDate: Option<String>,
    endDate: Option<String>,
    description: Option<String>,
    techStack: Option<seq<String>>)

  datatype EducationEntry = EducationEntry(
    school: Option<String>,
    degree: Option<String>,
    major: Option<String>,
    startDate: Option<String>,
    endDate: Option<String>)

  datatype Record = Record(
    name: Option<String>,
    phone: Option<String>,
    email: Option<String>,
    location: Option<String>,
    blog: Option<String>,
    github: Option<String>,
    jobTitle: Option<String>,
    expectedSalary: Option<String>,
    expectedCity: Option<String>,
    jobType: Option<String>,
    workExperience: Option<seq<WorkEntry>>,
    projectExperience: Option<seq<ProjectEntry>>,
    education: Option<seq<EducationEntry>>,
    skills: Option<seq<String>>,
    certificates: Option<seq<String>>,
    awards: Option<seq<String>>,
    selfIntroduction: Option<String>,
    rawText: Option<String>)

  /** `{}` */
  const EmptyRecord := Record(None, None, None, None, None, None, None, None, None, None,
                              None, None, None, None, None, None, None, None)

  /** What a reader of the record sees through `dict.get` with the source's defaults. */
  datatype View = View(
    name: String, phone: String, email: String, location: String, blog: String,
    github: String, jobTitle: String, expectedSalary: String, expectedCity: String,
    jobType: String, workExperience: seq<WorkEntry>, projectExperience: seq<ProjectEntry>,
    education: seq<EducationEntry>, skills: seq<String>, certificates: seq<String>,
    awards: seq<String>, selfIntroduction: String, rawText: String)

  function Read(r: Record): View {
    View(r.name.GetOr(""), r.phone.GetOr(""), r.email.GetOr(""), r.location.GetOr(""),
         r.blog.GetOr(""), r.github.GetOr(""), r.jobTitle.GetOr(""), r.expectedSalary.GetOr(""),
         r.expectedCity.GetOr(""), r.jobType.GetOr(""), r.workExperience.GetOr([]),
         r.projectExperience.GetOr([]), r.education.GetOr([]), r.skills.GetOr([]),
         r.certificates.GetOr([]), r.awards.GetOr([]), r.selfIntroduction.GetOr(""),
         r.rawText.GetOr(""))
  }

  /** Every one of the 18 keys is present. */
  predicate HasAllKeys(r: Record) {
    r.name.Some? && r.phone.Some? && r.email.Some? && r.location.Some? && r.blog.Some?
    && r.github.Some? && r.jobTitle.Some? && r.expectedSalary.Some? && r.expectedCity.Some?
    && r.jobType.Some? && r.workExperience.Some? && r.projectExperience.Some?
    && r.education.Some? && r.skills.Some? && r.certificates.Some? && r.awards.Some?
    && r.selfIntroduction.Some? && r.rawText.Some?
  }

  /** What `convert_resume_to_dict` may be given: an object with attributes
    * (`None` for an attribute it lacks), a dict, or anything else. */
  datatype Source = AttributeObject(attributes: Record) | Dict(d: Record) | Other

  /** `convert_resume_to_dict`: an object becomes a dict holding all 18 keys,
    * each attribute or its default; a dict is returned as it is; anything else
    * becomes `{}`. */
  function ConvertToDict(src: Source): (r: Record)
    ensures src.AttributeObject? ==> HasAllKeys(r) && Read(r) == Read(src.attributes)
    ensures src.Dict? ==> r == src.d
    ensures src.Other? ==> r == EmptyRecord && Read(r).skills == [] && Read(r).name == ""
  {
    match src
    case AttributeObject(a) =>
      var v := Read(a);
      Record(Some(v.name), Some(v.phone), Some(v.email), Some(v.location), Some(v.blog),
             Some(v.github), Some(v.jobTitle), Some(v.expectedSalary), Some(v.expectedCity),
             Some(v.jobType), Some(v.workExperience), Some(v.projectExperience),
             Some(v.education), Some(v.skills), Some(v.certificates), Some(v.awards),
             Some(v.selfIntroduction), Some(v.rawText))
    case Dict(d) => d
    case Other => EmptyRecord
  }

}
