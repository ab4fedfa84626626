/**
  The résumé document and its style configuration: one datatype per record
  of the application's type definitions. Every field is mandatory; lists
  are ordered and every list element carries a string `id`.
 */
module Types {
  import opened Seqs

  datatype Option<T> = None | Some(value: T)

  /** Contact block: exactly six free-text fields, all required. */
  datatype PersonalInfo = PersonalInfo(
    name: string,
    email: string,
    phone: string,
    linkedin: string,
    website: string,
    address: string)

  /** One job. `description` is an ordered list of bullet strings. */
  datatype WorkExperience = WorkExperience(
    id: string,
    jobTitle: string,
    company: string,
    location: string,
    startDate: string,
    endDate: string,
    isCurrent: bool,
    description: seq<string>)

  datatype Education = Education(
    id: string,
    institution: string,
    degree: string,
    fieldOfStudy: string,
    startDate: string,
    endDate: string)

  datatype Skill = Skill(id: string, name: string)

  /** One project. Unlike a job, its `description` is a single string. */
  datatype Project = Project(id: string, name: string, description: string, url: string)

  /** The whole document: no optional members. */
  datatype ResumeData = ResumeData(
    personalInfo: PersonalInfo,
    summary: string,
    workExperience: seq<WorkExperience>,
    education: seq<Education>,
    skills: seq<Skill>,
    projects: seq<Project>)

  datatype TemplateStyle = TemplateStyle(fontFamily: string, primaryColor: string)

  /** The closed set of layout variants. */
  datatype TemplateId = Modern | Professional | Creative

  /** The string value each variant carries at run time. */
  function TemplateTag(t: TemplateId): string
  {
    match t
    case Modern => "modern"
    case Professional => "professional"
    case Creative => "creative"
  }

  /** Reads a run-time tag back into a variant; `None` for any other string. */
  function ParseTemplateTag(tag: string): (r: Option<TemplateId>)
    ensures r.Some? ==> TemplateTag(r.value) == tag
  {
    if tag == "modern" then Some(Modern)
    else if tag == "professional" then Some(Professional)
    else if tag == "creative" then Some(Creative)
    else None
  }

  /** Tags and variants are in one-to-one correspondence. */
  lemma TemplateTagRoundTrip(t: TemplateId)
    ensures ParseTemplateTag(TemplateTag(t)) == Some(t)
  {
  }

  lemma TemplateTagInjective(s: TemplateId, t: TemplateId)
    ensures TemplateTag(s) == TemplateTag(t) ==> s == t
  {
  }

  /* Id accessors, used as keys of the four lists. */

  function WorkId(w: WorkExperience): string { w.id }
  function EducationId(e: Education): string { e.id }
  function SkillId(s: Skill): string { s.id }
  function ProjectId(p: Project): string { p.id }

  /** Per-list id uniqueness, the invariant the editor relies on. */
  predicate IdsUnique(d: ResumeData)
  {
    && UniqueKeys(d.workExperience, WorkId)
    && UniqueKeys(d.education, EducationId)
    && UniqueKeys(d.skills, SkillId)
    && UniqueKeys(d.projects, ProjectId)
  }

  /** The date range every view prints for a job: a current job always
      reads "Present", whatever its stored end date. */
  function DateRange(job: WorkExperience): string
  {
    job.startDate + " - " + (if job.isCurrent then "Present" else job.endDate)
  }

  /** Company and location on one line, as every view prints them. */
  function CompanyLine(job: WorkExperience): string
  {
    job.company + ", " + job.location
  }

  /** Degree and field of study on one line. */
  function DegreeLine(e: Education): string
  {
    e.degree + ", " + e.fieldOfStudy
  }

  /** For a current job the stored end date is never shown. */
  lemma CurrentJobIgnoresEndDate(job: WorkExperience, endDate: string)
    requires job.isCurrent
    ensures DateRange(job.(endDate := endDate)) == DateRange(job)
    ensures DateRange(job) == job.startDate + " - Present"
  {
  }

  /* Projections of the lists onto the strings the views print, in order. */

  function JobTitles(jobs: seq<WorkExperience>): seq<string>
  {
    if jobs == [] then [] else [jobs[0].jobTitle] + JobTitles(jobs[1..])
  }

  function DateRanges(jobs: seq<WorkExperience>): seq<string>
  {
    if jobs == [] then [] else [DateRange(jobs[0])] + DateRanges(jobs[1..])
  }

  /** Every bullet of every job, job by job, each job's bullets in order. */
  function AllBullets(jobs: seq<WorkExperience>): seq<string>
  {
    if jobs == [] then [] else jobs[0].description + AllBullets(jobs[1..])
  }

  function BulletCount(jobs: seq<WorkExperience>): nat
  {
    if jobs == [] then 0 else |jobs[0].description| + BulletCount(jobs[1..])
  }

  function Institutions(eds: seq<Education>): seq<string>
  {
    if eds == [] then [] else [eds[0].institution] + Institutions(eds[1..])
  }

  function SkillNames(skills: seq<Skill>): seq<string>
  {
    if skills == [] then [] else [skills[0].name] + SkillNames(skills[1..])
  }

  function ProjectNames(projects: seq<Project>): seq<string>
  {
    if projects == [] then [] else [projects[0].name] + ProjectNames(projects[1..])
  }

  function CompanyLines(jobs: seq<WorkExperience>): seq<string>
  {
    if jobs == [] then [] else [CompanyLine(jobs[0])] + CompanyLines(jobs[1..])
  }

  function DegreeLines(eds: seq<Education>): seq<string>
  {
    if eds == [] then [] else [DegreeLine(eds[0])] + DegreeLines(eds[1..])
  }

  /** The projections list one entry per element, in list order. */
  lemma {:induction false} ProjectionsPointwise(jobs: seq<WorkExperience>, skills: seq<Skill>)
    ensures |JobTitles(jobs)| == |jobs| && |DateRanges(jobs)| == |jobs| && |SkillNames(skills)| == |skills|
    ensures forall i :: 0 <= i < |jobs| ==> JobTitles(jobs)[i] == jobs[i].jobTitle
    ensures forall i :: 0 <= i < |jobs| ==> DateRanges(jobs)[i] == DateRange(jobs[i])
    ensures forall i :: 0 <= i < |skills| ==> SkillNames(skills)[i] == skills[i].name
    decreases |jobs| + |skills|
  {
    if jobs != [] {
      ProjectionsPointwise(jobs[1..], skills);
    } else if skills != [] {
      ProjectionsPointwise(jobs, skills[1..]);
    }
  }
}
