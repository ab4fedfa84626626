/**
  The document reducer: a pure function from a document and an edit action
  to the next document. The dynamically dispatched "update field" action of
  the application is split into its three addressing modes (a field of one
  list element, a field of the contact block, a whole section).
 */
module Reducer {
  import opened Types
  import opened Seqs

  /* ---------- Sections ---------- */

  datatype Section =
    | PersonalInfoSection | SummarySection
    | WorkSection | EducationSection | SkillsSection | ProjectsSection

  predicate IsList(s: Section)
  {
    s.WorkSection? || s.EducationSection? || s.SkillsSection? || s.ProjectsSection?
  }

  /** The four repeatable sections. */
  type ListSection = s: Section | IsList(s) witness WorkSection

  /** The property name under which the section is stored in the document. */
  function SectionKey(s: Section): string
  {
    match s
    case PersonalInfoSection => "personalInfo"
    case SummarySection => "summary"
    case WorkSection => "workExperience"
    case EducationSection => "education"
    case SkillsSection => "skills"
    case ProjectsSection => "projects"
  }

  /** `r` holds the same value as `d` in section `s`. */
  predicate SectionAgrees(d: ResumeData, r: ResumeData, s: Section)
  {
    match s
    case PersonalInfoSection => r.personalInfo == d.personalInfo
    case SummarySection => r.summary == d.summary
    case WorkSection => r.workExperience == d.workExperience
    case EducationSection => r.education == d.education
    case SkillsSection => r.skills == d.skills
    case ProjectsSection => r.projects == d.projects
  }

  /** Every section outside `touched` is unchanged from `d` to `r`. */
  predicate SameOutside(d: ResumeData, r: ResumeData, touched: set<Section>)
  {
    forall s: Section :: s !in touched ==> SectionAgrees(d, r, s)
  }

  /** Agreement on all six sections is equality of documents. */
  lemma SameEverywhere(d: ResumeData, r: ResumeData)
    requires SameOutside(d, r, {})
    ensures r == d
  {
    assert SectionAgrees(d, r, PersonalInfoSection);
    assert SectionAgrees(d, r, SummarySection);
    assert SectionAgrees(d, r, WorkSection);
    assert SectionAgrees(d, r, EducationSection);
    assert SectionAgrees(d, r, SkillsSection);
    assert SectionAgrees(d, r, ProjectsSection);
  }

  /** The ids of a repeatable section, in list order. */
  function ListIds(d: ResumeData, s: ListSection): seq<string>
  {
    match s
    case WorkSection => Keys(d.workExperience, WorkId)
    case EducationSection => Keys(d.education, EducationId)
    case SkillsSection => Keys(d.skills, SkillId)
    case ProjectsSection => Keys(d.projects, ProjectId)
  }

  function ListLength(d: ResumeData, s: ListSection): nat
  {
    |ListIds(d, s)|
  }

  /* ---------- Field values and per-entity fields ---------- */

  /** The three shapes a field value takes. */
  datatype FieldValue = StrValue(str: string) | BoolValue(flag: bool) | ListValue(lines: seq<string>)

  datatype ContactField = Name | Email | Phone | Linkedin | Website | Address

  function GetContact(p: PersonalInfo, f: ContactField): string
  {
    match f
    case Name => p.name
    case Email => p.email
    case Phone => p.phone
    case Linkedin => p.linkedin
    case Website => p.website
    case Address => p.address
  }

  /** Sets one contact field; the other five keep their values. */
  function SetContact(p: PersonalInfo, f: ContactField, v: string): (r: PersonalInfo)
    ensures GetContact(r, f) == v
    ensures forall g :: g != f ==> GetContact(r, g) == GetContact(p, g)
  {
    match f
    case Name => p.(name := v)
    case Email => p.(email := v)
    case Phone => p.(phone := v)
    case Linkedin => p.(linkedin := v)
    case Website => p.(website := v)
    case Address => p.(address := v)
  }

  /** A contact block is determined by its six fields. */
  lemma ContactExtensional(p: PersonalInfo, q: PersonalInfo)
    requires forall f :: GetContact(p, f) == GetContact(q, f)
    ensures p == q
  {
    assert GetContact(p, Name) == GetContact(q, Name);
    assert GetContact(p, Email) == GetContact(q, Email);
    assert GetContact(p, Phone) == GetContact(q, Phone);
    assert GetContact(p, Linkedin) == GetContact(q, Linkedin);
    assert GetContact(p, Website) == GetContact(q, Website);
    assert GetContact(p, Address) == GetContact(q, Address);
  }

  /** The editable fields of a job (the id is never edited). */
  datatype WorkField = JobTitle | Company | Location | WorkStartDate | WorkEndDate | IsCurrent | Description

  function GetWork(w: WorkExperience, f: WorkField): FieldValue
  {
    match f
    case JobTitle => StrValue(w.jobTitle)
    case Company => StrValue(w.company)
    case Location => StrValue(w.location)
    case WorkStartDate => StrValue(w.startDate)
    case WorkEndDate => StrValue(w.endDate)
    case IsCurrent => BoolValue(w.isCurrent)
    case Description => ListValue(w.description)
  }

  /** The value has the declared type of the field. */
  predicate WorkAccepts(f: WorkField, v: FieldValue)
  {
    match f
    case IsCurrent => v.BoolValue?
    case Description => v.ListValue?
    case _ => v.StrValue?
  }

  /** `w'` is `w` with field `f` set to `v` and nothing else changed. */
  predicate WorkEdited(w: WorkExperience, w': WorkExperience, f: WorkField, v: FieldValue)
  {
    && w'.id == w.id
    && GetWork(w', f) == v
    && forall g :: g != f ==> GetWork(w', g) == GetWork(w, g)
  }

  function SetWork(w: WorkExperience, f: WorkField, v: FieldValue): (r: WorkExperience)
    requires WorkAccepts(f, v)
    ensures WorkEdited(w, r, f, v)
  {
    match f
    case JobTitle => w.(jobTitle := v.str)
    case Company => w.(company := v.str)
    case Location => w.(location := v.str)
    case WorkStartDate => w.(startDate := v.str)
    case WorkEndDate => w.(endDate := v.str)
    case IsCurrent => w.(isCurrent := v.flag)
    case Description => w.(description := v.lines)
  }

  /** A job is determined by its id and its seven editable fields. */
  lemma WorkExtensional(w: WorkExperience, u: WorkExperience)
    requires w.id == u.id
    requires forall f :: GetWork(w, f) == GetWork(u, f)
    ensures w == u
  {
    assert GetWork(w, JobTitle) == GetWork(u, JobTitle);
    assert GetWork(w, Company) == GetWork(u, Company);
    assert GetWork(w, Location) == GetWork(u, Location);
    assert GetWork(w, WorkStartDate) == GetWork(u, WorkStartDate);
    assert GetWork(w, WorkEndDate) == GetWork(u, WorkEndDate);
    assert GetWork(w, IsCurrent) == GetWork(u, IsCurrent);
    assert GetWork(w, Description) == GetWork(u, Description);
  }

  /** So the edit relation has exactly one solution: the setter's result. */
  lemma WorkEditUnique(w: WorkExperience, w': WorkExperience, f: WorkField, v: FieldValue)
    requires WorkAccepts(f, v)
    requires WorkEdited(w, w', f, v)
    ensures w' == SetWork(w, f, v)
  {
    var r := SetWork(w, f, v);
    forall g ensures GetWork(w', g) == GetWork(r, g) {
      if g != f {
        assert GetWork(w', g) == GetWork(w, g) == GetWork(r, g);
      }
    }
    WorkExtensional(w', r);
  }

  datatype EducationField = Institution | Degree | FieldOfStudy | EducationStartDate | EducationEndDate

  function GetEducation(e: Education, f: EducationField): string
  {
    match f
    case Institution => e.institution
    case Degree => e.degree
    case FieldOfStudy => e.fieldOfStudy
    case EducationStartDate => e.startDate
    case EducationEndDate => e.endDate
  }

  predicate EducationEdited(e: Education, e': Education, f: EducationField, v: string)
  {
    && e'.id == e.id
    && GetEducation(e', f) == v
    && forall g :: g != f ==> GetEducation(e', g) == GetEducation(e, g)
  }

  function SetEducation(e: Education, f: EducationField, v: string): (r: Education)
    ensures EducationEdited(e, r, f, v)
  {
    match f
    case Institution => e.(institution := v)
    case Degree => e.(degree := v)
    case FieldOfStudy => e.(fieldOfStudy := v)
    case EducationStartDate => e.(startDate := v)
    case EducationEndDate => e.(endDate := v)
  }

  datatype SkillField = SkillName

  datatype ProjectField = ProjectName | ProjectDescription | ProjectUrl

  function GetProject(p: Project, f: ProjectField): string
  {
    match f
    case ProjectName => p.name
    case ProjectDescription => p.description
    case ProjectUrl => p.url
  }

  predicate ProjectEdited(p: Project, p': Project, f: ProjectField, v: string)
  {
    && p'.id == p.id
    && GetProject(p', f) == v
    && forall g :: g != f ==> GetProject(p', g) == GetProject(p, g)
  }

  function SetProject(p: Project, f: ProjectField, v: string): (r: Project)
    ensures ProjectEdited(p, r, f, v)
  {
    match f
    case ProjectName => p.(name := v)
    case ProjectDescription => p.(description := v)
    case ProjectUrl => p.(url := v)
  }

  /** A field of an element of one of the four lists; the constructor names
      the list. */
  datatype ItemField =
    | WorkItem(work: WorkField)
    | EducationItem(education: EducationField)
    | SkillItem(skill: SkillField)
    | ProjectItem(project: ProjectField)

  function ItemSection(f: ItemField): ListSection
  {
    match f
    case WorkItem(_) => WorkSection
    case EducationItem(_) => EducationSection
    case SkillItem(_) => SkillsSection
    case ProjectItem(_) => ProjectsSection
  }

  /** The value has the declared type of the field. */
  predicate Accepts(f: ItemField, v: FieldValue)
  {
    match f
    case WorkItem(wf) => WorkAccepts(wf, v)
    case _ => v.StrValue?
  }

  /** The whole-section replacement values: the summary text or a whole list. */
  datatype SectionContent =
    | SummaryText(text: string)
    | WorkList(jobs: seq<WorkExperience>)
    | EducationList(entries: seq<Education>)
    | SkillList(skills: seq<Skill>)
    | ProjectList(projects: seq<Project>)

  function ContentSection(c: SectionContent): Section
  {
    match c
    case SummaryText(_) => SummarySection
    case WorkList(_) => WorkSection
    case EducationList(_) => EducationSection
    case SkillList(_) => SkillsSection
    case ProjectList(_) => ProjectsSection
  }

  /* ---------- Actions ---------- */

  datatype Action =
    | UpdateItemField(index: nat, field: ItemField, value: FieldValue)
    | UpdateContactField(contact: ContactField, text: string)
    | ReplaceSection(content: SectionContent)
    | UpdateBullet(workIndex: nat, bulletIndex: nat, bullet: string)
    | AddItem(section: ListSection, stamp: string)
    | RemoveItem(section: ListSection, id: string)
    | SetResume(resume: ResumeData)

  /** What the application demands of a dispatched action: indices point at
      existing elements (an out-of-range index throws) and values have the
      field's declared type. */
  predicate Allowed(d: ResumeData, a: Action)
  {
    match a
    case UpdateItemField(i, f, v) => i < ListLength(d, ItemSection(f)) && Accepts(f, v)
    case UpdateBullet(wi, bi, _) =>
      wi < |d.workExperience| && bi < |d.workExperience[wi].description|
    case _ => true
  }

  /** The sections an action may change. */
  function Touched(a: Action): set<Section>
  {
    match a
    case UpdateItemField(_, f, _) => {ItemSection(f)}
    case UpdateContactField(_, _) => {PersonalInfoSection}
    case ReplaceSection(c) => {ContentSection(c)}
    case UpdateBullet(_, _, _) => {WorkSection}
    case AddItem(s, _) => {s}
    case RemoveItem(s, _) => {s}
    case SetResume(_) =>
      {PersonalInfoSection, SummarySection, WorkSection, EducationSection, SkillsSection, ProjectsSection}
  }

  /** Loading a whole document may change every section. */
  lemma SetResumeTouchesAll(doc: ResumeData)
    ensures forall s: Section :: s in Touched(SetResume(doc))
  {
    forall s: Section
      ensures s in Touched(SetResume(doc))
    {
      match s
      case PersonalInfoSection =>
      case SummarySection =>
      case WorkSection =>
      case EducationSection =>
      case SkillsSection =>
      case ProjectsSection =>
    }
  }

  /* ---------- Generic list edits ---------- */

  /** `b` has `a`'s length and agrees with `a` everywhere except at `i`. */
  predicate OnlyAt<T(==)>(a: seq<T>, b: seq<T>, i: nat)
  {
    && |b| == |a|
    && i < |a|
    && forall j :: 0 <= j < |a| && j != i ==> b[j] == a[j]
  }

  /** The filter condition of a removal: the element's key is not `id`. */
  function KeyDiffers<T>(key: T -> string, id: string): T -> bool
  {
    x => key(x) != id
  }

  /** Elements of `s` whose key differs from `id`, in their original order. */
  function RemoveByKey<T(!new)>(s: seq<T>, key: T -> string, id: string): (r: seq<T>)
    ensures forall x :: x in r <==> x in s && key(x) != id
    ensures forall x :: multiset(r)[x] == if key(x) != id then multiset(s)[x] else 0
    ensures IsSubseq(r, s)
    ensures FreshKey(s, key, id) ==> r == s
    ensures FreshKey(r, key, id)
  {
    FilterIsSubseq(s, KeyDiffers(key, id));
    var r := Filter(s, KeyDiffers(key, id));
    assert forall i :: 0 <= i < |r| ==> r[i] in r;
    assert FreshKey(s, key, id) ==> forall x :: x in s ==> KeyDiffers(key, id)(x);
    r
  }

  /* ---------- Action handlers ---------- */

  /** Update one field of the element at `index` of the list the field
      belongs to. */
  function ApplyItemField(d: ResumeData, index: nat, field: ItemField, value: FieldValue): (r: ResumeData)
    requires index < ListLength(d, ItemSection(field))
    requires Accepts(field, value)
    ensures SameOutside(d, r, {ItemSection(field)})
    ensures match field
      case WorkItem(f) =>
        OnlyAt(d.workExperience, r.workExperience, index)
        && WorkEdited(d.workExperience[index], r.workExperience[index], f, value)
      case EducationItem(f) =>
        OnlyAt(d.education, r.education, index)
        && EducationEdited(d.education[index], r.education[index], f, value.str)
      case SkillItem(_) =>
        OnlyAt(d.skills, r.skills, index)
        && r.skills[index].id == d.skills[index].id
        && r.skills[index].name == value.str
      case ProjectItem(f) =>
        OnlyAt(d.projects, r.projects, index)
        && ProjectEdited(d.projects[index], r.projects[index], f, value.str)
  {
    match field
    case WorkItem(f) =>
      d.(workExperience := d.workExperience[index := SetWork(d.workExperience[index], f, value)])
    case EducationItem(f) =>
      d.(education := d.education[index := SetEducation(d.education[index], f, value.str)])
    case SkillItem(_) =>
      d.(skills := d.skills[index := d.skills[index].(name := value.str)])
    case ProjectItem(f) =>
      d.(projects := d.projects[index := SetProject(d.projects[index], f, value.str)])
  }

  /** Set one field of the contact block. */
  function ApplyContactField(d: ResumeData, f: ContactField, v: string): (r: ResumeData)
    ensures SameOutside(d, r, {PersonalInfoSection})
    ensures GetContact(r.personalInfo, f) == v
    ensures forall g :: g != f ==> GetContact(r.personalInfo, g) == GetContact(d.personalInfo, g)
  {
    d.(personalInfo := SetContact(d.personalInfo, f, v))
  }

  /** Overwrite a whole section: the summary text or an entire list. */
  function ApplyReplaceSection(d: ResumeData, c: SectionContent): (r: ResumeData)
    ensures SameOutside(d, r, {ContentSection(c)})
    ensures match c
      case SummaryText(t) => r.summary == t
      case WorkList(jobs) => r.workExperience == jobs
      case EducationList(es) => r.education == es
      case SkillList(ss) => r.skills == ss
      case ProjectList(ps) => r.projects == ps
  {
    match c
    case SummaryText(t) => d.(summary := t)
    case WorkList(jobs) => d.(workExperience := jobs)
    case EducationList(es) => d.(education := es)
    case SkillList(ss) => d.(skills := ss)
    case ProjectList(ps) => d.(projects := ps)
  }

  /** Replace one bullet of one job. */
  function ApplyUpdateBullet(d: ResumeData, wi: nat, bi: nat, text: string): (r: ResumeData)
    requires wi < |d.workExperience| && bi < |d.workExperience[wi].description|
    ensures SameOutside(d, r, {WorkSection})
    ensures OnlyAt(d.workExperience, r.workExperience, wi)
    ensures var job, job' := d.workExperience[wi], r.workExperience[wi];
      && job'.id == job.id
      && (forall g :: g != Description ==> GetWork(job', g) == GetWork(job, g))
      && OnlyAt(job.description, job'.description, bi)
      && job'.description[bi] == text
  {
    var job := d.workExperience[wi];
    d.(workExperience := d.workExperience[wi := job.(description := job.description[bi := text])])
  }

  /** The id a newly added element receives: the section's key, a dash and
      the caller-supplied time stamp. */
  function NewItemId(s: ListSection, stamp: string): string
  {
    SectionKey(s) + "-" + stamp
  }

  /** Distinct stamps give distinct ids within a section. */
  lemma NewItemIdInjective(s: ListSection, stamp1: string, stamp2: string)
    requires stamp1 != stamp2
    ensures NewItemId(s, stamp1) != NewItemId(s, stamp2)
  {
    var prefix := SectionKey(s) + "-";
    assert NewItemId(s, stamp1)[|prefix|..] == stamp1;
    assert NewItemId(s, stamp2)[|prefix|..] == stamp2;
  }

  /** The default elements: every text empty, `isCurrent` false, and a job
      starts with one empty bullet. */
  predicate BlankWork(w: WorkExperience, id: string)
  {
    && w.id == id
    && w.jobTitle == "" && w.company == "" && w.location == ""
    && w.startDate == "" && w.endDate == ""
    && !w.isCurrent
    && w.description == [""]
  }

  predicate BlankEducation(e: Education, id: string)
  {
    e.id == id && e.institution == "" && e.degree == "" && e.fieldOfStudy == ""
    && e.startDate == "" && e.endDate == ""
  }

  predicate BlankSkill(s: Skill, id: string)
  {
    s.id == id && s.name == ""
  }

  predicate BlankProject(p: Project, id: string)
  {
    p.id == id && p.name == "" && p.description == "" && p.url == ""
  }

  /** `b` is `a` with exactly one element appended. */
  predicate Appended<T(==)>(a: seq<T>, b: seq<T>)
  {
    |b| == |a| + 1 && b[..|a|] == a
  }

  /** Append a blank element with a new id to the chosen list. */
  function ApplyAddItem(d: ResumeData, s: ListSection, stamp: string): (r: ResumeData)
    ensures SameOutside(d, r, {s})
    ensures ListLength(r, s) == ListLength(d, s) + 1
    ensures var id := NewItemId(s, stamp);
      match s
      case WorkSection =>
        Appended(d.workExperience, r.workExperience) && BlankWork(r.workExperience[|d.workExperience|], id)
      case EducationSection =>
        Appended(d.education, r.education) && BlankEducation(r.education[|d.education|], id)
      case SkillsSection =>
        Appended(d.skills, r.skills) && BlankSkill(r.skills[|d.skills|], id)
      case ProjectsSection =>
        Appended(d.projects, r.projects) && BlankProject(r.projects[|d.projects|], id)
  {
    var id := NewItemId(s, stamp);
    match s
    case WorkSection =>
      d.(workExperience := d.workExperience + [WorkExperience(id, "", "", "", "", "", false, [""])])
    case EducationSection =>
      d.(education := d.education + [Education(id, "", "", "", "", "")])
    case SkillsSection =>
      d.(skills := d.skills + [Skill(id, "")])
    case ProjectsSection =>
      d.(projects := d.projects + [Project(id, "", "", "")])
  }

  /* Replacing one list leaves the other five sections as they were. */

  lemma WorkOnly(d: ResumeData, jobs: seq<WorkExperience>)
    ensures SameOutside(d, d.(workExperience := jobs), {WorkSection})
  {
  }

  lemma EducationOnly(d: ResumeData, es: seq<Education>)
    ensures SameOutside(d, d.(education := es), {EducationSection})
  {
  }

  lemma SkillsOnly(d: ResumeData, ss: seq<Skill>)
    ensures SameOutside(d, d.(skills := ss), {SkillsSection})
  {
  }

  lemma ProjectsOnly(d: ResumeData, ps: seq<Project>)
    ensures SameOutside(d, d.(projects := ps), {ProjectsSection})
  {
  }

  /** Drop every element of the chosen list whose id is `id`. */
  function ApplyRemoveItem(d: ResumeData, s: ListSection, id: string): (r: ResumeData)
    ensures SameOutside(d, r, {s})
    ensures match s
      case WorkSection => r.workExperience == RemoveByKey(d.workExperience, WorkId, id)
      case EducationSection => r.education == RemoveByKey(d.education, EducationId, id)
      case SkillsSection => r.skills == RemoveByKey(d.skills, SkillId, id)
      case ProjectsSection => r.projects == RemoveByKey(d.projects, ProjectId, id)
  {
    match s
    case WorkSection =>
      var jobs := RemoveByKey(d.workExperience, WorkId, id);
      WorkOnly(d, jobs);
      d.(workExperience := jobs)
    case EducationSection =>
      var es := RemoveByKey(d.education, EducationId, id);
      EducationOnly(d, es);
      d.(education := es)
    case SkillsSection =>
      var ss := RemoveByKey(d.skills, SkillId, id);
      SkillsOnly(d, ss);
      d.(skills := ss)
    case ProjectsSection =>
      var ps := RemoveByKey(d.projects, ProjectId, id);
      ProjectsOnly(d, ps);
      d.(projects := ps)
  }

  /** The reducer. */
  function Reduce(d: ResumeData, a: Action): (r: ResumeData)
    requires Allowed(d, a)
    ensures a.SetResume? ==> r == a.resume
    ensures SameOutside(d, r, Touched(a))
  {
    match a
    case UpdateItemField(i, f, v) => ApplyItemField(d, i, f, v)
    case UpdateContactField(f, v) => ApplyContactField(d, f, v)
    case ReplaceSection(c) => ApplyReplaceSection(d, c)
    case UpdateBullet(wi, bi, t) => ApplyUpdateBullet(d, wi, bi, t)
    case AddItem(s, stamp) => ApplyAddItem(d, s, stamp)
    case RemoveItem(s, id) => ApplyRemoveItem(d, s, id)
    case SetResume(doc) =>
      SetResumeTouchesAll(doc);
      doc
  }
}
