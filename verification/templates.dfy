/**
  The three résumé templates as pure mappings from (root id, document,
  style) to a page layout. Each function follows the element order of its
  component. For each kind of entry a view function states which strings
  the entry shows under each role; the list builders are proved to show,
  role by role, the concatenation of their entries' views, and the
  template lemmas turn that into statements about the document's lists.
 */
module Templates {
  import opened Seqs
  import opened Types
  import opened Layout

  /* ---------------- Lines the templates compose ---------------- */

  /** Title and company on one line. */
  function Headline(j: WorkExperience): string
  {
    j.jobTitle + " | " + j.company
  }

  /** Location and date range on one line. */
  function PlaceAndDate(j: WorkExperience): string
  {
    j.location + " | " + DateRange(j)
  }

  /** A study period, start and end joined by `sep`. */
  function StudyRange(e: Education, sep: string): string
  {
    e.startDate + sep + e.endDate
  }

  function Headlines(jobs: seq<WorkExperience>): seq<string>
  {
    if jobs == [] then [] else [Headline(jobs[0])] + Headlines(jobs[1..])
  }

  function PlacesAndDates(jobs: seq<WorkExperience>): seq<string>
  {
    if jobs == [] then [] else [PlaceAndDate(jobs[0])] + PlacesAndDates(jobs[1..])
  }

  /** Degree and field of study as two separate lines per entry. */
  function DegreesAndFields(eds: seq<Education>): seq<string>
  {
    if eds == [] then [] else [eds[0].degree, eds[0].fieldOfStudy] + DegreesAndFields(eds[1..])
  }

  function StudyRanges(eds: seq<Education>, sep: string): seq<string>
  {
    if eds == [] then [] else [StudyRange(eds[0], sep)] + StudyRanges(eds[1..], sep)
  }

  function ProjectDescriptions(projects: seq<Project>): seq<string>
  {
    if projects == [] then [] else [projects[0].description] + ProjectDescriptions(projects[1..])
  }

  /* ---------------- Link targets ---------------- */

  /** A link target for a user-typed address: kept when it already starts
      with "http", otherwise prefixed with "https://". */
  function NormalizeUrl(url: string): (r: string)
    ensures "http" <= r
    ensures "http" <= url ==> r == url
    ensures !("http" <= url) ==> r == "https://" + url
  {
    if "http" <= url then url else "https://" + url
  }

  /** Normalising twice is normalising once, and the typed address is
      always the tail of the target. */
  lemma NormalizeUrlIdempotent(url: string)
    ensures NormalizeUrl(NormalizeUrl(url)) == NormalizeUrl(url)
    ensures exists k :: 0 <= k <= |NormalizeUrl(url)| && NormalizeUrl(url)[k..] == url
  {
    var r := NormalizeUrl(url);
    if "http" <= url {
      assert r[0..] == url;
    } else {
      assert r[8..] == url;
    }
  }

  /* ---------------- Sections ---------------- */

  /** What a section heading contributes under `role`. */
  function Title(title: string, role: Role): seq<string>
  {
    if role == HeadingRole(2) then [title] else []
  }

  /** Under any role but the section-heading role, a section shows only
      what its body shows. */
  lemma TitleOff(title: string, role: Role, body: seq<string>)
    requires role != HeadingRole(2)
    ensures Title(title, role) + body == body
  {
    EmptyLeft(Title(title, role), body);
  }

  /** A plain section: a heading with the given accent, then the body.
      In Modern and Professional the accent is the colour of the heading's
      bottom border; the title text itself keeps the page's grey. */
  function Section(title: string, accent: Accent, body: seq<Node>): seq<Node>
  {
    [Heading(2, title, accent)] + body
  }

  /** An ornamented section: the heading in the primary colour between two rules. */
  function CreativeSection(title: string, color: string, body: seq<Node>): seq<Node>
  {
    [Rule(Colored(color)), Heading(2, title, Colored(color)), Rule(Colored(color))] + body
  }

  lemma SectionSelect(title: string, accent: Accent, body: seq<Node>, role: Role)
    ensures Select(Section(title, accent, body), role) == Title(title, role) + Select(body, role)
  {
    SelectAppend([Heading(2, title, accent)], body, role);
    SelectOne(Heading(2, title, accent), role);
  }

  lemma CreativeSectionSelect(title: string, color: string, body: seq<Node>, role: Role)
    ensures Select(CreativeSection(title, color, body), role) == Title(title, role) + Select(body, role)
  {
    SelectThree(Rule(Colored(color)), Heading(2, title, Colored(color)), Rule(Colored(color)), body, role);
  }

  /** A section whose body has no section heading of its own contributes
      exactly its own heading. */
  lemma SectionHeadingsOf(title: string, accent: Accent, body: seq<Node>)
    requires Select(body, HeadingRole(2)) == []
    ensures SectionHeadings(Section(title, accent, body)) == [Heading(2, title, accent)]
  {
    NoSectionHeadings(body);
    var h := Heading(2, title, accent);
    SectionHeadingsAppend([h], body);
    assert SectionHeadings([h]) == [h] by {
      assert [h][1..] == [];
    }
  }

  lemma CreativeSectionHeadingsOf(title: string, color: string, body: seq<Node>)
    requires Select(body, HeadingRole(2)) == []
    ensures SectionHeadings(CreativeSection(title, color, body)) == [Heading(2, title, Colored(color))]
  {
    NoSectionHeadings(body);
    var h := Heading(2, title, Colored(color));
    var rule := Rule(Colored(color));
    assert SectionHeadings([h]) == [h] by {
      assert [h][1..] == [];
    }
    assert SectionHeadings([rule]) == [] by {
      assert [rule][1..] == [];
    }
    assert [rule, h, rule] + body == [rule] + ([h] + ([rule] + body));
    SectionHeadingsAppend([rule], [h] + ([rule] + body));
    SectionHeadingsAppend([h], [rule] + body);
    SectionHeadingsAppend([rule], body);
  }

  /** Extraction from consecutive parts. */
  lemma SelectParts(s1: seq<Node>, s2: seq<Node>, s3: seq<Node>, s4: seq<Node>, role: Role)
    ensures Select(s1 + s2, role) == Select(s1, role) + Select(s2, role)
    ensures Select(s1 + s2 + s3, role) == Select(s1, role) + Select(s2, role) + Select(s3, role)
    ensures Select(s1 + s2 + s3 + s4, role) == Select(s1, role) + Select(s2, role) + Select(s3, role) + Select(s4, role)
  {
    SelectAppend(s1 + s2 + s3, s4, role);
    SelectAppend(s1 + s2, s3, role);
    SelectAppend(s1, s2, role);
  }

  lemma SectionHeadingsParts(s1: seq<Node>, s2: seq<Node>, s3: seq<Node>, s4: seq<Node>)
    ensures SectionHeadings(s1 + s2) == SectionHeadings(s1) + SectionHeadings(s2)
    ensures SectionHeadings(s1 + s2 + s3) == SectionHeadings(s1) + SectionHeadings(s2) + SectionHeadings(s3)
    ensures SectionHeadings(s1 + s2 + s3 + s4)
         == SectionHeadings(s1) + SectionHeadings(s2) + SectionHeadings(s3) + SectionHeadings(s4)
  {
    SectionHeadingsAppend(s1 + s2 + s3, s4);
    SectionHeadingsAppend(s1 + s2, s3);
    SectionHeadingsAppend(s1, s2);
  }

  /* ---------------- Entry views ---------------- */

  /** A job entry is a few fixed nodes followed by its bullets: when the
      fixed nodes show no list item and the view is the fixed nodes' output
      plus the bullets under the item role, the entry shows that view. */
  lemma BulletsAfterFixed(fixed: seq<string>, bullets: seq<string>, view: seq<string>, role: Role)
    requires role == ItemRole ==> fixed == [] && view == bullets
    requires role != ItemRole ==> view == fixed
    ensures fixed + Select(Items(bullets), role) == view
  {
    if role == ItemRole {
      EmptyLeft(fixed, bullets);
    } else {
      EmptyRight(fixed, Select(Items(bullets), role));
    }
  }

  /** What one job entry shows under each role in the single-column and
      ornamented layouts: its title as entry heading, its date range as a
      muted line, its company line, and its bullets. */
  function JobView(j: WorkExperience, role: Role): seq<string>
  {
    match role
    case HeadingRole(l) => if l == 3 then [j.jobTitle] else []
    case MutedRole => [DateRange(j)]
    case TextRole => [CompanyLine(j)]
    case ItemRole => j.description
    case _ => []
  }

  /** What one education entry shows: the institution as entry heading,
      then either one degree line (`split` false) or degree and field as two
      lines, and the study period joined by `sep` as a muted line. */
  function EducationView(e: Education, split: bool, sep: string, role: Role): seq<string>
  {
    match role
    case HeadingRole(l) => if l == 3 then [e.institution] else []
    case TextRole => if split then [e.degree, e.fieldOfStudy] else [DegreeLine(e)]
    case MutedRole => [StudyRange(e, sep)]
    case _ => []
  }

  /* ---------------- Modern ---------------- */

  function ModernHeader(p: PersonalInfo, color: string): seq<Node>
  {
    [Heading(1, p.name, Colored(color)), Text(p.email), Separator, Text(p.phone), Separator, Text(p.linkedin)]
  }

  function ModernJob(j: WorkExperience): seq<Node>
  {
    [Heading(3, j.jobTitle, Plain), Muted(DateRange(j)), Text(CompanyLine(j))] + Items(j.description)
  }

  lemma ModernJobStep(j: WorkExperience, rest: seq<Node>, role: Role)
    ensures Select(ModernJob(j) + rest, role) == JobView(j, role) + Select(rest, role)
  {
    SelectAppend(ModernJob(j), rest, role);
    SelectThree(Heading(3, j.jobTitle, Plain), Muted(DateRange(j)), Text(CompanyLine(j)), Items(j.description), role);
    var fixed := Own(Heading(3, j.jobTitle, Plain), role) + Own(Muted(DateRange(j)), role) + Own(Text(CompanyLine(j)), role);
    BulletsAfterFixed(fixed, j.description, JobView(j, role), role);
  }

  /** The work entries of the single-column layout: the job titles, date
      ranges, company lines and bullets in list order, and no section heading. */
  function ModernJobs(jobs: seq<WorkExperience>): (r: seq<Node>)
    ensures Select(r, HeadingRole(2)) == []
    ensures Select(r, HeadingRole(3)) == JobTitles(jobs)
    ensures Select(r, MutedRole) == DateRanges(jobs)
    ensures Select(r, TextRole) == CompanyLines(jobs)
    ensures Select(r, ItemRole) == AllBullets(jobs)
    decreases |jobs|
  {
    if jobs == [] then []
    else
      var rest := ModernJobs(jobs[1..]);
      ModernJobStep(jobs[0], rest, HeadingRole(2));
      ModernJobStep(jobs[0], rest, HeadingRole(3));
      ModernJobStep(jobs[0], rest, MutedRole);
      ModernJobStep(jobs[0], rest, TextRole);
      ModernJobStep(jobs[0], rest, ItemRole);
      ModernJob(jobs[0]) + rest
  }

  function ModernEducationEntry(e: Education): seq<Node>
  {
    [Heading(3, e.institution, Plain), Text(DegreeLine(e)), Muted(StudyRange(e, " - "))]
  }

  lemma ModernEducationStep(e: Education, rest: seq<Node>, role: Role)
    ensures Select(ModernEducationEntry(e) + rest, role) == EducationView(e, false, " - ", role) + Select(rest, role)
  {
    SelectThree(Heading(3, e.institution, Plain), Text(DegreeLine(e)), Muted(StudyRange(e, " - ")), rest, role);
  }

  /** The education entries of the single-column layout. */
  function ModernEducation(eds: seq<Education>): (r: seq<Node>)
    ensures Select(r, HeadingRole(2)) == []
    ensures Select(r, HeadingRole(3)) == Institutions(eds)
    ensures Select(r, TextRole) == DegreeLines(eds)
    ensures Select(r, MutedRole) == StudyRanges(eds, " - ")
    ensures Select(r, ItemRole) == []
    decreases |eds|
  {
    if eds == [] then []
    else
      var rest := ModernEducation(eds[1..]);
      ModernEducationStep(eds[0], rest, HeadingRole(2));
      ModernEducationStep(eds[0], rest, HeadingRole(3));
      ModernEducationStep(eds[0], rest, TextRole);
      ModernEducationStep(eds[0], rest, MutedRole);
      ModernEducationStep(eds[0], rest, ItemRole);
      ModernEducationEntry(eds[0]) + rest
  }

  /** The skills of the single-column layout: one line, names joined by " | ". */
  function SkillLine(skills: seq<Skill>): string
  {
    Join(SkillNames(skills), " | ")
  }

  function ModernMain(d: ResumeData, color: string): seq<Node>
  {
    Section("Summary", Colored(color), [Text(d.summary)])
      + Section("Work Experience", Colored(color), ModernJobs(d.workExperience))
      + Section("Education", Colored(color), ModernEducation(d.education))
      + Section("Skills", Colored(color), [Text(SkillLine(d.skills))])
  }

  /** The single-column layout: a centred header and four sections. */
  function ModernTemplate(id: string, d: ResumeData, style: TemplateStyle): Page
  {
    Page(id, style.fontFamily, [
      Region(Header, Plain, ModernHeader(d.personalInfo, style.primaryColor)),
      Region(MainColumn, Plain, ModernMain(d, style.primaryColor))])
  }

  lemma ModernHeaderSelect(p: PersonalInfo, color: string, role: Role)
    ensures Select(ModernHeader(p, color), role)
         == Own(Heading(1, p.name, Colored(color)), role) + Own(Text(p.email), role)
          + Own(Text(p.phone), role) + Own(Text(p.linkedin), role)
  {
    var tail := [Text(p.phone), Separator, Text(p.linkedin)];
    assert ModernHeader(p, color) == [Heading(1, p.name, Colored(color)), Text(p.email), Separator] + tail;
    assert tail == [Text(p.phone), Separator, Text(p.linkedin)] + [];
    SelectThree(Heading(1, p.name, Colored(color)), Text(p.email), Separator, tail, role);
    SelectThree(Text(p.phone), Separator, Text(p.linkedin), [], role);
  }

  /** The header shows the name, in the primary colour, and exactly three
      contact details: e-mail, phone and LinkedIn. */
  lemma ModernHeaderContent(p: PersonalInfo, color: string)
    ensures Select(ModernHeader(p, color), HeadingRole(1)) == [p.name]
    ensures Select(ModernHeader(p, color), TextRole) == [p.email, p.phone, p.linkedin]
    ensures ModernHeader(p, color)[0].accent == Colored(color)
  {
    ModernHeaderSelect(p, color, HeadingRole(1));
    ModernHeaderSelect(p, color, TextRole);
  }

  lemma ModernMainSelect(d: ResumeData, color: string, role: Role)
    ensures Select(ModernMain(d, color), role)
         == (Title("Summary", role) + Own(Text(d.summary), role))
          + (Title("Work Experience", role) + Select(ModernJobs(d.workExperience), role))
          + (Title("Education", role) + Select(ModernEducation(d.education), role))
          + (Title("Skills", role) + Own(Text(SkillLine(d.skills)), role))
  {
    SelectParts(Section("Summary", Colored(color), [Text(d.summary)]),
                Section("Work Experience", Colored(color), ModernJobs(d.workExperience)),
                Section("Education", Colored(color), ModernEducation(d.education)),
                Section("Skills", Colored(color), [Text(SkillLine(d.skills))]), role);
    SectionSelect("Summary", Colored(color), [Text(d.summary)], role);
    SectionSelect("Work Experience", Colored(color), ModernJobs(d.workExperience), role);
    SectionSelect("Education", Colored(color), ModernEducation(d.education), role);
    SectionSelect("Skills", Colored(color), [Text(SkillLine(d.skills))], role);
    SelectOne(Text(d.summary), role);
    SelectOne(Text(SkillLine(d.skills)), role);
  }

  /** Below the section headings, the main column shows the summary, the
      job entries, the education entries and the skill line, in that order. */
  lemma ModernMainBody(d: ResumeData, color: string, role: Role)
    requires role != HeadingRole(2)
    ensures Select(ModernMain(d, color), role)
         == Own(Text(d.summary), role) + Select(ModernJobs(d.workExperience), role)
          + Select(ModernEducation(d.education), role) + Own(Text(SkillLine(d.skills)), role)
  {
    ModernMainSelect(d, color, role);
    TitleOff("Summary", role, Own(Text(d.summary), role));
    TitleOff("Work Experience", role, Select(ModernJobs(d.workExperience), role));
    TitleOff("Education", role, Select(ModernEducation(d.education), role));
    TitleOff("Skills", role, Own(Text(SkillLine(d.skills)), role));
  }

  lemma ModernMainHeadings(d: ResumeData, color: string)
    ensures Select(ModernMain(d, color), HeadingRole(3)) == JobTitles(d.workExperience) + Institutions(d.education)
  {
    ModernMainBody(d, color, HeadingRole(3));
    var a := Own(Text(d.summary), HeadingRole(3));
    var b := Select(ModernJobs(d.workExperience), HeadingRole(3));
    var c := Select(ModernEducation(d.education), HeadingRole(3));
    var e := Own(Text(SkillLine(d.skills)), HeadingRole(3));
    assert a == [] && e == [];
    EmptyRight(a + b + c, e);
    EmptyLeft(a, b);
  }

  lemma ModernMainMuted(d: ResumeData, color: string)
    ensures Select(ModernMain(d, color), MutedRole) == DateRanges(d.workExperience) + StudyRanges(d.education, " - ")
  {
    ModernMainBody(d, color, MutedRole);
    var a := Own(Text(d.summary), MutedRole);
    var b := Select(ModernJobs(d.workExperience), MutedRole);
    var c := Select(ModernEducation(d.education), MutedRole);
    var e := Own(Text(SkillLine(d.skills)), MutedRole);
    assert a == [] && e == [];
    EmptyRight(a + b + c, e);
    EmptyLeft(a, b);
  }

  lemma ModernMainItems(d: ResumeData, color: string)
    ensures Select(ModernMain(d, color), ItemRole) == AllBullets(d.workExperience)
  {
    ModernMainBody(d, color, ItemRole);
    var a := Own(Text(d.summary), ItemRole);
    var b := Select(ModernJobs(d.workExperience), ItemRole);
    var c := Select(ModernEducation(d.education), ItemRole);
    var e := Own(Text(SkillLine(d.skills)), ItemRole);
    assert a == [] && c == [] && e == [];
    EmptyRight(a + b + c, e);
    EmptyRight(a + b, c);
    EmptyLeft(a, b);
  }

  lemma ModernMainText(d: ResumeData, color: string)
    ensures Select(ModernMain(d, color), TextRole)
         == [d.summary] + CompanyLines(d.workExperience) + DegreeLines(d.education) + [SkillLine(d.skills)]
  {
    ModernMainSelect(d, color, TextRole);
    var a := Title("Summary", TextRole) + Own(Text(d.summary), TextRole);
    var b := Title("Work Experience", TextRole) + Select(ModernJobs(d.workExperience), TextRole);
    var c := Title("Education", TextRole) + Select(ModernEducation(d.education), TextRole);
    var e := Title("Skills", TextRole) + Own(Text(SkillLine(d.skills)), TextRole);
    assert a == [d.summary];
    assert b == CompanyLines(d.workExperience);
    assert c == DegreeLines(d.education);
    assert e == [SkillLine(d.skills)];
  }

  /** The main column: job titles then institutions as entry headings; the
      job date ranges then the study periods as muted lines; every bullet of
      every job and nothing else as list items; the summary first and the
      skill names joined by " | " last among the plain lines. */
  lemma ModernMainContent(d: ResumeData, color: string)
    ensures Select(ModernMain(d, color), HeadingRole(3)) == JobTitles(d.workExperience) + Institutions(d.education)
    ensures Select(ModernMain(d, color), MutedRole) == DateRanges(d.workExperience) + StudyRanges(d.education, " - ")
    ensures Select(ModernMain(d, color), ItemRole) == AllBullets(d.workExperience)
    ensures Select(ModernMain(d, color), TextRole)
         == [d.summary] + CompanyLines(d.workExperience) + DegreeLines(d.education) + [SkillLine(d.skills)]
  {
    ModernMainHeadings(d, color);
    ModernMainMuted(d, color);
    ModernMainItems(d, color);
    ModernMainText(d, color);
  }

  /** The main column has exactly four sections, Summary, Work Experience,
      Education and Skills, in that order, each marked with the primary colour. */
  lemma ModernSections(d: ResumeData, color: string)
    ensures SectionHeadings(ModernMain(d, color)) == [
      Heading(2, "Summary", Colored(color)), Heading(2, "Work Experience", Colored(color)),
      Heading(2, "Education", Colored(color)), Heading(2, "Skills", Colored(color))]
  {
    SelectOne(Text(d.summary), HeadingRole(2));
    SelectOne(Text(SkillLine(d.skills)), HeadingRole(2));
    SectionHeadingsOf("Summary", Colored(color), [Text(d.summary)]);
    SectionHeadingsOf("Work Experience", Colored(color), ModernJobs(d.workExperience));
    SectionHeadingsOf("Education", Colored(color), ModernEducation(d.education));
    SectionHeadingsOf("Skills", Colored(color), [Text(SkillLine(d.skills))]);
    SectionHeadingsParts(Section("Summary", Colored(color), [Text(d.summary)]),
                         Section("Work Experience", Colored(color), ModernJobs(d.workExperience)),
                         Section("Education", Colored(color), ModernEducation(d.education)),
                         Section("Skills", Colored(color), [Text(SkillLine(d.skills))]));
  }

  /** The single-column layout never reads the projects, the website or the
      address: changing them leaves the page unchanged. */
  lemma ModernIgnoresProjectsWebsiteAddress(id: string, d: ResumeData, style: TemplateStyle,
                                            projects: seq<Project>, website: string, address: string)
    ensures ModernTemplate(id, d, style)
         == ModernTemplate(id, d.(projects := projects,
                                  personalInfo := d.personalInfo.(website := website, address := address)), style)
  {
  }

  /* ---------------- Entries shared by the two-column and ornamented layouts ---------------- */

  /** An education entry with degree and field of study on separate lines
      and the study period joined by `sep`. */
  function SplitEducationEntry(e: Education, sep: string): seq<Node>
  {
    [Heading(3, e.institution, Plain), Text(e.degree), Text(e.fieldOfStudy), Muted(StudyRange(e, sep))]
  }

  lemma SplitEducationStep(e: Education, sep: string, rest: seq<Node>, role: Role)
    ensures Select(SplitEducationEntry(e, sep) + rest, role) == EducationView(e, true, sep, role) + Select(rest, role)
  {
    SelectFour(Heading(3, e.institution, Plain), Text(e.degree), Text(e.fieldOfStudy), Muted(StudyRange(e, sep)), rest, role);
  }

  function SplitEducation(eds: seq<Education>, sep: string): (r: seq<Node>)
    ensures Select(r, HeadingRole(1)) == []
    ensures Select(r, HeadingRole(2)) == []
    ensures Select(r, HeadingRole(3)) == Institutions(eds)
    ensures Select(r, TextRole) == DegreesAndFields(eds)
    ensures Select(r, MutedRole) == StudyRanges(eds, sep)
    ensures Select(r, ItemRole) == []
    decreases |eds|
  {
    if eds == [] then []
    else
      var rest := SplitEducation(eds[1..], sep);
      SplitEducationStep(eds[0], sep, rest, HeadingRole(1));
      SplitEducationStep(eds[0], sep, rest, HeadingRole(2));
      SplitEducationStep(eds[0], sep, rest, HeadingRole(3));
      SplitEducationStep(eds[0], sep, rest, TextRole);
      SplitEducationStep(eds[0], sep, rest, MutedRole);
      SplitEducationStep(eds[0], sep, rest, ItemRole);
      SplitEducationEntry(eds[0], sep) + rest
  }

  /* ---------------- Professional ---------------- */

  /** What one job entry shows in the two-column layout: title and company
      as entry heading, location and date range on one line, and its bullets. */
  function HeadlineView(j: WorkExperience, role: Role): seq<string>
  {
    match role
    case HeadingRole(l) => if l == 3 then [Headline(j)] else []
    case TextRole => [PlaceAndDate(j)]
    case ItemRole => j.description
    case _ => []
  }

  function ProfessionalJob(j: WorkExperience): seq<Node>
  {
    [Heading(3, Headline(j), Plain), Text(PlaceAndDate(j))] + Items(j.description)
  }

  lemma ProfessionalJobStep(j: WorkExperience, rest: seq<Node>, role: Role)
    ensures Select(ProfessionalJob(j) + rest, role) == HeadlineView(j, role) + Select(rest, role)
  {
    SelectAppend(ProfessionalJob(j), rest, role);
    SelectTwo(Heading(3, Headline(j), Plain), Text(PlaceAndDate(j)), Items(j.description), role);
    var fixed := Own(Heading(3, Headline(j), Plain), role) + Own(Text(PlaceAndDate(j)), role);
    BulletsAfterFixed(fixed, j.description, HeadlineView(j, role), role);
  }

  /** The work entries of the two-column layout. */
  function ProfessionalJobs(jobs: seq<WorkExperience>): (r: seq<Node>)
    ensures Select(r, HeadingRole(2)) == []
    ensures Select(r, HeadingRole(3)) == Headlines(jobs)
    ensures Select(r, TextRole) == PlacesAndDates(jobs)
    ensures Select(r, MutedRole) == []
    ensures Select(r, ItemRole) == AllBullets(jobs)
    decreases |jobs|
  {
    if jobs == [] then []
    else
      var rest := ProfessionalJobs(jobs[1..]);
      ProfessionalJobStep(jobs[0], rest, HeadingRole(2));
      ProfessionalJobStep(jobs[0], rest, HeadingRole(3));
      ProfessionalJobStep(jobs[0], rest, TextRole);
      ProfessionalJobStep(jobs[0], rest, MutedRole);
      ProfessionalJobStep(jobs[0], rest, ItemRole);
      ProfessionalJob(jobs[0]) + rest
  }

  function ProfessionalContacts(p: PersonalInfo): seq<Node>
  {
    [Heading(1, p.name, Plain), Text(p.email), Text(p.phone), Text(p.linkedin), Text(p.website)]
  }

  /** The coloured sidebar: name, four contact lines, then the skills as a
      list and the education entries, under two plain headings. */
  function ProfessionalSidebar(d: ResumeData): seq<Node>
  {
    ProfessionalContacts(d.personalInfo)
      + Section("Skills", Plain, Items(SkillNames(d.skills)))
      + Section("Education", Plain, SplitEducation(d.education, "-"))
  }

  function ProfessionalMain(d: ResumeData, color: string): seq<Node>
  {
    Section("Summary", Colored(color), [Text(d.summary)])
      + Section("Work Experience", Colored(color), ProfessionalJobs(d.workExperience))
  }

  /** The two-column layout: a sidebar filled with the primary colour and a
      main column of two sections. */
  function ProfessionalTemplate(id: string, d: ResumeData, style: TemplateStyle): Page
  {
    Page(id, style.fontFamily, [
      Region(Sidebar, Colored(style.primaryColor), ProfessionalSidebar(d)),
      Region(MainColumn, Plain, ProfessionalMain(d, style.primaryColor))])
  }

  lemma ProfessionalContactsSelect(p: PersonalInfo, role: Role)
    ensures Select(ProfessionalContacts(p), role)
         == Own(Heading(1, p.name, Plain), role) + Own(Text(p.email), role) + Own(Text(p.phone), role)
          + Own(Text(p.linkedin), role) + Own(Text(p.website), role)
  {
    assert ProfessionalContacts(p)
        == [Heading(1, p.name, Plain), Text(p.email), Text(p.phone), Text(p.linkedin)] + [Text(p.website)];
    SelectFour(Heading(1, p.name, Plain), Text(p.email), Text(p.phone), Text(p.linkedin), [Text(p.website)], role);
    SelectOne(Text(p.website), role);
  }

  lemma ProfessionalSidebarSelect(d: ResumeData, role: Role)
    ensures Select(ProfessionalSidebar(d), role)
         == Select(ProfessionalContacts(d.personalInfo), role)
          + (Title("Skills", role) + Select(Items(SkillNames(d.skills)), role))
          + (Title("Education", role) + Select(SplitEducation(d.education, "-"), role))
  {
    SelectParts(ProfessionalContacts(d.personalInfo), Section("Skills", Plain, Items(SkillNames(d.skills))),
                Section("Education", Plain, SplitEducation(d.education, "-")), [], role);
    SectionSelect("Skills", Plain, Items(SkillNames(d.skills)), role);
    SectionSelect("Education", Plain, SplitEducation(d.education, "-"), role);
  }

  /** The sidebar shows the name, then e-mail, phone, LinkedIn and website
      followed by each degree and field of study as plain lines, every skill
      name as a list item, and the institutions and study periods of the
      education list. */
  lemma ProfessionalSidebarContent(d: ResumeData)
    ensures Select(ProfessionalSidebar(d), HeadingRole(1)) == [d.personalInfo.name]
    ensures Select(ProfessionalSidebar(d), TextRole)
         == [d.personalInfo.email, d.personalInfo.phone, d.personalInfo.linkedin, d.personalInfo.website]
          + DegreesAndFields(d.education)
    ensures Select(ProfessionalSidebar(d), ItemRole) == SkillNames(d.skills)
    ensures Select(ProfessionalSidebar(d), HeadingRole(3)) == Institutions(d.education)
    ensures Select(ProfessionalSidebar(d), MutedRole) == StudyRanges(d.education, "-")
  {
    ProfessionalSidebarName(d);
    ProfessionalSidebarText(d);
    ProfessionalSidebarItems(d);
    ProfessionalSidebarInstitutions(d);
    ProfessionalSidebarMuted(d);
  }

  /** Below the section headings, the sidebar shows the contact block, the
      skills and the education entries, in that order. */
  lemma ProfessionalSidebarBody(d: ResumeData, role: Role)
    requires role != HeadingRole(2)
    ensures Select(ProfessionalSidebar(d), role)
         == Select(ProfessionalContacts(d.personalInfo), role) + Select(Items(SkillNames(d.skills)), role)
          + Select(SplitEducation(d.education, "-"), role)
  {
    ProfessionalSidebarSelect(d, role);
    TitleOff("Skills", role, Select(Items(SkillNames(d.skills)), role));
    TitleOff("Education", role, Select(SplitEducation(d.education, "-"), role));
  }

  lemma ProfessionalSidebarName(d: ResumeData)
    ensures Select(ProfessionalSidebar(d), HeadingRole(1)) == [d.personalInfo.name]
  {
    ProfessionalSidebarBody(d, HeadingRole(1));
    ProfessionalContactsSelect(d.personalInfo, HeadingRole(1));
    var a := Select(ProfessionalContacts(d.personalInfo), HeadingRole(1));
    var b := Select(Items(SkillNames(d.skills)), HeadingRole(1));
    var c := Select(SplitEducation(d.education, "-"), HeadingRole(1));
    assert b == [] && c == [];
    EmptyRight(a + b, c);
    EmptyRight(a, b);
  }

  lemma ProfessionalContactsText(p: PersonalInfo)
    ensures Select(ProfessionalContacts(p), TextRole) == [p.email, p.phone, p.linkedin, p.website]
  {
    ProfessionalContactsSelect(p, TextRole);
    assert Own(Heading(1, p.name, Plain), TextRole) == [];
  }

  lemma ProfessionalSidebarText(d: ResumeData)
    ensures Select(ProfessionalSidebar(d), TextRole)
         == [d.personalInfo.email, d.personalInfo.phone, d.personalInfo.linkedin, d.personalInfo.website]
          + DegreesAndFields(d.education)
  {
    ProfessionalSidebarBody(d, TextRole);
    ProfessionalContactsText(d.personalInfo);
    var a := Select(ProfessionalContacts(d.personalInfo), TextRole);
    var b := Select(Items(SkillNames(d.skills)), TextRole);
    var c := Select(SplitEducation(d.education, "-"), TextRole);
    assert b == [];
    EmptyRight(a, b);
  }

  lemma ProfessionalSidebarItems(d: ResumeData)
    ensures Select(ProfessionalSidebar(d), ItemRole) == SkillNames(d.skills)
  {
    ProfessionalSidebarBody(d, ItemRole);
    ProfessionalContactsSelect(d.personalInfo, ItemRole);
    var a := Select(ProfessionalContacts(d.personalInfo), ItemRole);
    var b := Select(Items(SkillNames(d.skills)), ItemRole);
    var c := Select(SplitEducation(d.education, "-"), ItemRole);
    assert a == [] && c == [];
    EmptyRight(a + b, c);
    EmptyLeft(a, b);
  }

  lemma ProfessionalSidebarInstitutions(d: ResumeData)
    ensures Select(ProfessionalSidebar(d), HeadingRole(3)) == Institutions(d.education)
  {
    ProfessionalSidebarBody(d, HeadingRole(3));
    ProfessionalContactsSelect(d.personalInfo, HeadingRole(3));
    var a := Select(ProfessionalContacts(d.personalInfo), HeadingRole(3));
    var b := Select(Items(SkillNames(d.skills)), HeadingRole(3));
    var c := Select(SplitEducation(d.education, "-"), HeadingRole(3));
    assert a == [] && b == [];
    EmptyRight(a, b);
    EmptyLeft(a + b, c);
  }

  lemma ProfessionalSidebarMuted(d: ResumeData)
    ensures Select(ProfessionalSidebar(d), MutedRole) == StudyRanges(d.education, "-")
  {
    ProfessionalSidebarBody(d, MutedRole);
    ProfessionalContactsSelect(d.personalInfo, MutedRole);
    var a := Select(ProfessionalContacts(d.personalInfo), MutedRole);
    var b := Select(Items(SkillNames(d.skills)), MutedRole);
    var c := Select(SplitEducation(d.education, "-"), MutedRole);
    assert a == [] && b == [];
    EmptyRight(a, b);
    EmptyLeft(a + b, c);
  }

  /** The sidebar's two subsections are Skills then Education, with plain
      headings on the coloured background. */
  lemma ProfessionalSidebarSections(d: ResumeData)
    ensures SectionHeadings(ProfessionalSidebar(d)) == [Heading(2, "Skills", Plain), Heading(2, "Education", Plain)]
  {
    var p := d.personalInfo;
    ProfessionalContactsSelect(p, HeadingRole(2));
    NoSectionHeadings(ProfessionalContacts(p));
    SectionHeadingsOf("Skills", Plain, Items(SkillNames(d.skills)));
    SectionHeadingsOf("Education", Plain, SplitEducation(d.education, "-"));
    SectionHeadingsParts(ProfessionalContacts(p), Section("Skills", Plain, Items(SkillNames(d.skills))),
                         Section("Education", Plain, SplitEducation(d.education, "-")), []);
  }

  lemma ProfessionalMainSelect(d: ResumeData, color: string, role: Role)
    ensures Select(ProfessionalMain(d, color), role)
         == (Title("Summary", role) + Own(Text(d.summary), role))
          + (Title("Work Experience", role) + Select(ProfessionalJobs(d.workExperience), role))
  {
    SelectAppend(Section("Summary", Colored(color), [Text(d.summary)]),
                 Section("Work Experience", Colored(color), ProfessionalJobs(d.workExperience)), role);
    SectionSelect("Summary", Colored(color), [Text(d.summary)], role);
    SectionSelect("Work Experience", Colored(color), ProfessionalJobs(d.workExperience), role);
    SelectOne(Text(d.summary), role);
  }

  /** The main column has two sections, Summary and Work Experience, marked
      with the primary colour; it shows each job's title and company as entry
      heading, the summary then each job's location and dates as plain
      lines, and every bullet of every job. */
  lemma ProfessionalMainContent(d: ResumeData, color: string)
    ensures SectionHeadings(ProfessionalMain(d, color))
         == [Heading(2, "Summary", Colored(color)), Heading(2, "Work Experience", Colored(color))]
    ensures Select(ProfessionalMain(d, color), HeadingRole(3)) == Headlines(d.workExperience)
    ensures Select(ProfessionalMain(d, color), TextRole) == [d.summary] + PlacesAndDates(d.workExperience)
    ensures Select(ProfessionalMain(d, color), ItemRole) == AllBullets(d.workExperience)
  {
    ProfessionalMainHeadlines(d, color);
    ProfessionalMainText(d, color);
    ProfessionalMainItems(d, color);
    SelectOne(Text(d.summary), HeadingRole(2));
    SectionHeadingsOf("Summary", Colored(color), [Text(d.summary)]);
    SectionHeadingsOf("Work Experience", Colored(color), ProfessionalJobs(d.workExperience));
    SectionHeadingsAppend(Section("Summary", Colored(color), [Text(d.summary)]),
                          Section("Work Experience", Colored(color), ProfessionalJobs(d.workExperience)));
  }

  lemma ProfessionalMainHeadlines(d: ResumeData, color: string)
    ensures Select(ProfessionalMain(d, color), HeadingRole(3)) == Headlines(d.workExperience)
  {
    ProfessionalMainSelect(d, color, HeadingRole(3));
    var a := Title("Summary", HeadingRole(3)) + Own(Text(d.summary), HeadingRole(3));
    var b := Title("Work Experience", HeadingRole(3)) + Select(ProfessionalJobs(d.workExperience), HeadingRole(3));
    assert a == [];
    EmptyLeft(a, b);
    assert b == Headlines(d.workExperience);
  }

  lemma ProfessionalMainText(d: ResumeData, color: string)
    ensures Select(ProfessionalMain(d, color), TextRole) == [d.summary] + PlacesAndDates(d.workExperience)
  {
    ProfessionalMainSelect(d, color, TextRole);
    var a := Title("Summary", TextRole) + Own(Text(d.summary), TextRole);
    var b := Title("Work Experience", TextRole) + Select(ProfessionalJobs(d.workExperience), TextRole);
    assert a == [d.summary];
    assert b == PlacesAndDates(d.workExperience);
  }

  lemma ProfessionalMainItems(d: ResumeData, color: string)
    ensures Select(ProfessionalMain(d, color), ItemRole) == AllBullets(d.workExperience)
  {
    ProfessionalMainSelect(d, color, ItemRole);
    var a := Title("Summary", ItemRole) + Own(Text(d.summary), ItemRole);
    var b := Title("Work Experience", ItemRole) + Select(ProfessionalJobs(d.workExperience), ItemRole);
    assert a == [];
    EmptyLeft(a, b);
    assert b == AllBullets(d.workExperience);
  }

  /** The two-column layout never reads the projects or the address. */
  lemma ProfessionalIgnoresProjectsAddress(id: string, d: ResumeData, style: TemplateStyle,
                                           projects: seq<Project>, address: string)
    ensures ProfessionalTemplate(id, d, style)
         == ProfessionalTemplate(id, d.(projects := projects,
                                        personalInfo := d.personalInfo.(address := address)), style)
  {
  }

  /* ---------------- Creative ---------------- */

  /** The website link of the ornamented header: present only when a
      website is filled in. */
  function WebsiteLink(website: string): seq<Node>
  {
    if website != "" then [Separator, Link(NormalizeUrl(website), website, Plain)] else []
  }

  function CreativeHeader(p: PersonalInfo, color: string): seq<Node>
  {
    [Heading(1, p.name, Colored(color)), Link("mailto:" + p.email, p.email, Plain), Separator,
     Link("tel:" + p.phone, p.phone, Plain), Separator, Link("https://" + p.linkedin, p.linkedin, Plain)]
      + WebsiteLink(p.website)
  }

  function CreativeJob(j: WorkExperience): seq<Node>
  {
    [Heading(3, j.jobTitle, Plain), Text(CompanyLine(j)), Muted(DateRange(j))] + Items(j.description)
  }

  lemma CreativeJobStep(j: WorkExperience, rest: seq<Node>, role: Role)
    ensures Select(CreativeJob(j) + rest, role) == JobView(j, role) + Select(rest, role)
  {
    SelectAppend(CreativeJob(j), rest, role);
    SelectThree(Heading(3, j.jobTitle, Plain), Text(CompanyLine(j)), Muted(DateRange(j)), Items(j.description), role);
    var fixed := Own(Heading(3, j.jobTitle, Plain), role) + Own(Text(CompanyLine(j)), role) + Own(Muted(DateRange(j)), role);
    BulletsAfterFixed(fixed, j.description, JobView(j, role), role);
  }

  /** The work entries of the ornamented layout. */
  function CreativeJobs(jobs: seq<WorkExperience>): (r: seq<Node>)
    ensures Select(r, HeadingRole(2)) == []
    ensures Select(r, HeadingRole(3)) == JobTitles(jobs)
    ensures Select(r, MutedRole) == DateRanges(jobs)
    ensures Select(r, TextRole) == CompanyLines(jobs)
    ensures Select(r, ItemRole) == AllBullets(jobs)
    ensures Select(r, ChipRole) == []
    decreases |jobs|
  {
    if jobs == [] then []
    else
      var rest := CreativeJobs(jobs[1..]);
      CreativeJobStep(jobs[0], rest, HeadingRole(2));
      CreativeJobStep(jobs[0], rest, HeadingRole(3));
      CreativeJobStep(jobs[0], rest, MutedRole);
      CreativeJobStep(jobs[0], rest, TextRole);
      CreativeJobStep(jobs[0], rest, ItemRole);
      CreativeJobStep(jobs[0], rest, ChipRole);
      CreativeJob(jobs[0]) + rest
  }

  /** Whatever the node order inside an entry, the single-column and the
      ornamented layouts show the same work content under every role. */
  lemma {:induction false} JobsAgreeAcrossLayouts(jobs: seq<WorkExperience>, role: Role)
    ensures Select(ModernJobs(jobs), role) == Select(CreativeJobs(jobs), role)
    decreases |jobs|
  {
    if jobs != [] {
      JobsAgreeAcrossLayouts(jobs[1..], role);
      ModernJobStep(jobs[0], ModernJobs(jobs[1..]), role);
      CreativeJobStep(jobs[0], CreativeJobs(jobs[1..]), role);
    }
  }

  /** The skills of the ornamented layout: one chip per skill, in the
      primary colour. */
  function SkillChips(skills: seq<Skill>, color: string): (r: seq<Node>)
    ensures |r| == |skills|
    ensures forall i :: 0 <= i < |r| ==> r[i].Chip? && r[i].accent == Colored(color)
    ensures Select(r, ChipRole) == SkillNames(skills)
    ensures Select(r, HeadingRole(2)) == []
    ensures Select(r, HeadingRole(3)) == []
    ensures Select(r, TextRole) == []
    ensures Select(r, MutedRole) == []
    ensures Select(r, ItemRole) == []
    decreases |skills|
  {
    if skills == [] then []
    else
      var chip := Chip(skills[0].name, Colored(color));
      var rest := SkillChips(skills[1..], color);
      SelectAppend([chip], rest, ChipRole);
      SelectAppend([chip], rest, HeadingRole(2));
      SelectAppend([chip], rest, HeadingRole(3));
      SelectAppend([chip], rest, TextRole);
      SelectAppend([chip], rest, MutedRole);
      SelectAppend([chip], rest, ItemRole);
      SelectOne(chip, ChipRole);
      SelectOne(chip, HeadingRole(2));
      SelectOne(chip, HeadingRole(3));
      SelectOne(chip, TextRole);
      SelectOne(chip, MutedRole);
      SelectOne(chip, ItemRole);
      [chip] + rest
  }

  /** The link targets of the project entries, in order. */
  function ProjectTargets(projects: seq<Project>): seq<string>
  {
    if projects == [] then [] else [NormalizeUrl(projects[0].url)] + ProjectTargets(projects[1..])
  }

  /** What one project entry shows: its name as a link and its description. */
  function ProjectView(p: Project, role: Role): seq<string>
  {
    match role
    case LinkRole => [p.name]
    case TextRole => [p.description]
    case _ => []
  }

  function CreativeProject(p: Project, color: string): seq<Node>
  {
    [Link(NormalizeUrl(p.url), p.name, Colored(color)), Text(p.description)]
  }

  lemma CreativeProjectStep(p: Project, color: string, rest: seq<Node>, role: Role)
    ensures Select(CreativeProject(p, color) + rest, role) == ProjectView(p, role) + Select(rest, role)
    ensures Hrefs(CreativeProject(p, color) + rest) == [NormalizeUrl(p.url)] + Hrefs(rest)
  {
    var link := Link(NormalizeUrl(p.url), p.name, Colored(color));
    SelectTwo(link, Text(p.description), rest, role);
    assert CreativeProject(p, color) + rest == [link] + ([Text(p.description)] + rest);
    HrefsAppend([link], [Text(p.description)] + rest);
    HrefsAppend([Text(p.description)], rest);
    assert [link][1..] == [];
    assert [Text(p.description)][1..] == [];
  }

  /** The project entries of the ornamented layout: each name as a link in
      the primary colour to its normalised address, then its description. */
  function CreativeProjects(projects: seq<Project>, color: string): (r: seq<Node>)
    ensures Select(r, HeadingRole(2)) == []
    ensures Select(r, HeadingRole(3)) == []
    ensures Select(r, LinkRole) == ProjectNames(projects)
    ensures Select(r, TextRole) == ProjectDescriptions(projects)
    ensures Select(r, MutedRole) == []
    ensures Hrefs(r) == ProjectTargets(projects)
    decreases |projects|
  {
    if projects == [] then []
    else
      var rest := CreativeProjects(projects[1..], color);
      CreativeProjectStep(projects[0], color, rest, HeadingRole(2));
      CreativeProjectStep(projects[0], color, rest, HeadingRole(3));
      CreativeProjectStep(projects[0], color, rest, LinkRole);
      CreativeProjectStep(projects[0], color, rest, TextRole);
      CreativeProjectStep(projects[0], color, rest, MutedRole);
      CreativeProject(projects[0], color) + rest
  }

  /** Every project link leads to an http(s) address. */
  lemma {:induction false} ProjectTargetsAreWebAddresses(projects: seq<Project>)
    ensures |ProjectTargets(projects)| == |projects|
    ensures forall i :: 0 <= i < |projects| ==> "http" <= ProjectTargets(projects)[i]
    decreases |projects|
  {
    if projects != [] {
      ProjectTargetsAreWebAddresses(projects[1..]);
    }
  }

  function CreativeMain(d: ResumeData, color: string): seq<Node>
  {
    CreativeSection("Summary", color, [Text(d.summary)])
      + CreativeSection("Experience", color, CreativeJobs(d.workExperience))
      + CreativeSection("Skills", color, SkillChips(d.skills, color))
  }

  /** The projects section, shown only when there is at least one project. */
  function ProjectsBlock(projects: seq<Project>, color: string): seq<Node>
  {
    if |projects| > 0 then CreativeSection("Projects", color, CreativeProjects(projects, color)) else []
  }

  /** The two-column grid under the main sections: education, then projects. */
  function CreativeFoot(d: ResumeData, color: string): seq<Node>
  {
    CreativeSection("Education", color, SplitEducation(d.education, " - ")) + ProjectsBlock(d.projects, color)
  }

  /** The ornamented layout: a centred header with links, three main
      sections, and a grid with education and projects. */
  function CreativeTemplate(id: string, d: ResumeData, style: TemplateStyle): Page
  {
    Page(id, style.fontFamily, [
      Region(Header, Plain, CreativeHeader(d.personalInfo, style.primaryColor)),
      Region(MainColumn, Plain, CreativeMain(d, style.primaryColor)),
      Region(FootGrid, Plain, CreativeFoot(d, style.primaryColor))])
  }

  lemma CreativeHeaderSelect(p: PersonalInfo, color: string, role: Role)
    ensures Select(CreativeHeader(p, color), role)
         == (Own(Heading(1, p.name, Colored(color)), role) + Own(Link("mailto:" + p.email, p.email, Plain), role))
          + (Own(Link("tel:" + p.phone, p.phone, Plain), role) + Own(Link("https://" + p.linkedin, p.linkedin, Plain), role))
          + Select(WebsiteLink(p.website), role)
  {
    var h := Heading(1, p.name, Colored(color));
    var mail := Link("mailto:" + p.email, p.email, Plain);
    var tel := Link("tel:" + p.phone, p.phone, Plain);
    var li := Link("https://" + p.linkedin, p.linkedin, Plain);
    var web := WebsiteLink(p.website);
    assert CreativeHeader(p, color) == [h, mail, Separator] + ([tel, Separator, li] + web);
    SelectThree(h, mail, Separator, [tel, Separator, li] + web, role);
    SelectThree(tel, Separator, li, web, role);
  }

  /** The ornamented header shows the name in the primary colour and links
      for e-mail, phone and LinkedIn, plus the website exactly when one is
      filled in; the links lead to a mail address, a phone number, the
      LinkedIn address over https, and the normalised website. */
  lemma CreativeHeaderContent(p: PersonalInfo, color: string)
    ensures Select(CreativeHeader(p, color), HeadingRole(1)) == [p.name]
    ensures Select(CreativeHeader(p, color), LinkRole)
         == [p.email, p.phone, p.linkedin] + (if p.website != "" then [p.website] else [])
    ensures CreativeHeader(p, color)[0].accent == Colored(color)
    ensures Hrefs(CreativeHeader(p, color))
         == ["mailto:" + p.email, "tel:" + p.phone, "https://" + p.linkedin]
          + (if p.website != "" then [NormalizeUrl(p.website)] else [])
  {
    CreativeHeaderTexts(p, color);
    CreativeHeaderTargets(p, color);
  }

  lemma CreativeHeaderTexts(p: PersonalInfo, color: string)
    ensures Select(CreativeHeader(p, color), HeadingRole(1)) == [p.name]
    ensures Select(CreativeHeader(p, color), LinkRole)
         == [p.email, p.phone, p.linkedin] + (if p.website != "" then [p.website] else [])
  {
    CreativeHeaderSelect(p, color, HeadingRole(1));
    CreativeHeaderSelect(p, color, LinkRole);
    if p.website != "" {
      SelectTwo(Separator, Link(NormalizeUrl(p.website), p.website, Plain), [], HeadingRole(1));
      SelectTwo(Separator, Link(NormalizeUrl(p.website), p.website, Plain), [], LinkRole);
      assert WebsiteLink(p.website) == [Separator, Link(NormalizeUrl(p.website), p.website, Plain)] + [];
    }
  }

  lemma CreativeHeaderTargets(p: PersonalInfo, color: string)
    ensures Hrefs(CreativeHeader(p, color))
         == ["mailto:" + p.email, "tel:" + p.phone, "https://" + p.linkedin]
          + (if p.website != "" then [NormalizeUrl(p.website)] else [])
  {
    LinkRowTargets(Heading(1, p.name, Colored(color)), "mailto:" + p.email, p.email, "tel:" + p.phone, p.phone,
                   "https://" + p.linkedin, p.linkedin, WebsiteLink(p.website));
    WebsiteTargets(p.website);
  }

  /** A leading non-link node, then three links separated by separators:
      the targets are the three hrefs, in order. */
  lemma LinkRowTargets(first: Node, m: string, mt: string, t: string, tt: string, l: string, lt: string, tail: seq<Node>)
    requires !first.Link?
    ensures Hrefs([first, Link(m, mt, Plain), Separator, Link(t, tt, Plain), Separator, Link(l, lt, Plain)] + tail)
         == [m, t, l] + Hrefs(tail)
  {
    var a, b, c := Link(m, mt, Plain), Link(t, tt, Plain), Link(l, lt, Plain);
    var s5 := [c] + tail;
    var s4 := [Separator] + s5;
    var s3 := [b] + s4;
    var s2 := [Separator] + s3;
    var s1 := [a] + s2;
    HrefsCons(c, tail);
    HrefsCons(Separator, s5);
    HrefsCons(b, s4);
    HrefsCons(Separator, s3);
    HrefsCons(a, s2);
    HrefsCons(first, s1);
    assert [first, a, Separator, b, Separator, c] + tail == [first] + s1;
  }

  /** The website link, when shown, leads to the normalised address. */
  lemma WebsiteTargets(website: string)
    ensures Hrefs(WebsiteLink(website)) == if website != "" then [NormalizeUrl(website)] else []
  {
    if website != "" {
      var web := Link(NormalizeUrl(website), website, Plain);
      HrefsCons(Separator, [web]);
      HrefsCons(web, []);
      assert [web] == [web] + [];
      assert WebsiteLink(website) == [Separator] + [web];
    }
  }

  lemma CreativeMainSelect(d: ResumeData, color: string, role: Role)
    ensures Select(CreativeMain(d, color), role)
         == (Title("Summary", role) + Own(Text(d.summary), role))
          + (Title("Experience", role) + Select(CreativeJobs(d.workExperience), role))
          + (Title("Skills", role) + Select(SkillChips(d.skills, color), role))
  {
    SelectParts(CreativeSection("Summary", color, [Text(d.summary)]),
                CreativeSection("Experience", color, CreativeJobs(d.workExperience)),
                CreativeSection("Skills", color, SkillChips(d.skills, color)), [], role);
    CreativeSectionSelect("Summary", color, [Text(d.summary)], role);
    CreativeSectionSelect("Experience", color, CreativeJobs(d.workExperience), role);
    CreativeSectionSelect("Skills", color, SkillChips(d.skills, color), role);
    SelectOne(Text(d.summary), role);
  }

  /** Below the section headings, the ornamented column shows the summary,
      the job entries and the skill chips, in that order. */
  lemma CreativeMainBody(d: ResumeData, color: string, role: Role)
    requires role != HeadingRole(2)
    ensures Select(CreativeMain(d, color), role)
         == Own(Text(d.summary), role) + Select(CreativeJobs(d.workExperience), role)
          + Select(SkillChips(d.skills, color), role)
  {
    CreativeMainSelect(d, color, role);
    TitleOff("Summary", role, Own(Text(d.summary), role));
    TitleOff("Experience", role, Select(CreativeJobs(d.workExperience), role));
    TitleOff("Skills", role, Select(SkillChips(d.skills, color), role));
  }

  lemma CreativeMainHeadings(d: ResumeData, color: string)
    ensures Select(CreativeMain(d, color), HeadingRole(3)) == JobTitles(d.workExperience)
  {
    CreativeMainBody(d, color, HeadingRole(3));
    var a := Own(Text(d.summary), HeadingRole(3));
    var b := Select(CreativeJobs(d.workExperience), HeadingRole(3));
    var c := Select(SkillChips(d.skills, color), HeadingRole(3));
    assert a == [] && c == [];
    EmptyRight(a + b, c);
    EmptyLeft(a, b);
  }

  lemma CreativeMainMuted(d: ResumeData, color: string)
    ensures Select(CreativeMain(d, color), MutedRole) == DateRanges(d.workExperience)
  {
    CreativeMainBody(d, color, MutedRole);
    var a := Own(Text(d.summary), MutedRole);
    var b := Select(CreativeJobs(d.workExperience), MutedRole);
    var c := Select(SkillChips(d.skills, color), MutedRole);
    assert a == [] && c == [];
    EmptyRight(a + b, c);
    EmptyLeft(a, b);
  }

  lemma CreativeMainItems(d: ResumeData, color: string)
    ensures Select(CreativeMain(d, color), ItemRole) == AllBullets(d.workExperience)
  {
    CreativeMainBody(d, color, ItemRole);
    var a := Own(Text(d.summary), ItemRole);
    var b := Select(CreativeJobs(d.workExperience), ItemRole);
    var c := Select(SkillChips(d.skills, color), ItemRole);
    assert a == [] && c == [];
    EmptyRight(a + b, c);
    EmptyLeft(a, b);
  }

  lemma CreativeMainText(d: ResumeData, color: string)
    ensures Select(CreativeMain(d, color), TextRole) == [d.summary] + CompanyLines(d.workExperience)
  {
    CreativeMainBody(d, color, TextRole);
    var a := Own(Text(d.summary), TextRole);
    var b := Select(CreativeJobs(d.workExperience), TextRole);
    var c := Select(SkillChips(d.skills, color), TextRole);
    assert a == [d.summary] && c == [];
    EmptyRight(a + b, c);
  }

  lemma CreativeMainChips(d: ResumeData, color: string)
    ensures Select(CreativeMain(d, color), ChipRole) == SkillNames(d.skills)
  {
    CreativeMainBody(d, color, ChipRole);
    var a := Own(Text(d.summary), ChipRole);
    var b := Select(CreativeJobs(d.workExperience), ChipRole);
    var c := Select(SkillChips(d.skills, color), ChipRole);
    assert a == [] && b == [];
    EmptyRight(a, b);
    EmptyLeft(a + b, c);
  }

  /** The ornamented main column: Summary, Experience and Skills in that
      order, in the primary colour; each job's title, date range, company
      line and bullets; and every skill as a chip. */
  lemma CreativeMainContent(d: ResumeData, color: string)
    ensures SectionHeadings(CreativeMain(d, color)) == [
      Heading(2, "Summary", Colored(color)), Heading(2, "Experience", Colored(color)),
      Heading(2, "Skills", Colored(color))]
    ensures Select(CreativeMain(d, color), HeadingRole(3)) == JobTitles(d.workExperience)
    ensures Select(CreativeMain(d, color), MutedRole) == DateRanges(d.workExperience)
    ensures Select(CreativeMain(d, color), ItemRole) == AllBullets(d.workExperience)
    ensures Select(CreativeMain(d, color), TextRole) == [d.summary] + CompanyLines(d.workExperience)
    ensures Select(CreativeMain(d, color), ChipRole) == SkillNames(d.skills)
  {
    CreativeMainSections(d, color);
    CreativeMainHeadings(d, color);
    CreativeMainMuted(d, color);
    CreativeMainItems(d, color);
    CreativeMainText(d, color);
    CreativeMainChips(d, color);
  }

  lemma CreativeMainSections(d: ResumeData, color: string)
    ensures SectionHeadings(CreativeMain(d, color)) == [
      Heading(2, "Summary", Colored(color)), Heading(2, "Experience", Colored(color)),
      Heading(2, "Skills", Colored(color))]
  {
    SelectOne(Text(d.summary), HeadingRole(2));
    CreativeSectionsThree("Summary", "Experience", "Skills", color,
                          [Text(d.summary)], CreativeJobs(d.workExperience), SkillChips(d.skills, color));
  }

  /** Three ornamented sections whose bodies hold no section heading show
      exactly their three titles as section headings. */
  lemma CreativeSectionsThree(t1: string, t2: string, t3: string, color: string,
                              b1: seq<Node>, b2: seq<Node>, b3: seq<Node>)
    requires Select(b1, HeadingRole(2)) == [] && Select(b2, HeadingRole(2)) == [] && Select(b3, HeadingRole(2)) == []
    ensures SectionHeadings(CreativeSection(t1, color, b1) + CreativeSection(t2, color, b2) + CreativeSection(t3, color, b3))
         == [Heading(2, t1, Colored(color)), Heading(2, t2, Colored(color)), Heading(2, t3, Colored(color))]
  {
    var s1, s2, s3 := CreativeSection(t1, color, b1), CreativeSection(t2, color, b2), CreativeSection(t3, color, b3);
    CreativeSectionHeadingsOf(t1, color, b1);
    CreativeSectionHeadingsOf(t2, color, b2);
    CreativeSectionHeadingsOf(t3, color, b3);
    SectionHeadingsAppend(s1 + s2, s3);
    SectionHeadingsAppend(s1, s2);
  }

  /** The grid shows an Education section and, exactly when the list is not
      empty, a Projects section after it. */
  lemma CreativeFootSections(d: ResumeData, color: string)
    ensures SectionHeadings(CreativeFoot(d, color))
         == [Heading(2, "Education", Colored(color))]
          + (if |d.projects| > 0 then [Heading(2, "Projects", Colored(color))] else [])
  {
    CreativeSectionHeadingsOf("Education", color, SplitEducation(d.education, " - "));
    SectionHeadingsAppend(CreativeSection("Education", color, SplitEducation(d.education, " - ")),
                          ProjectsBlock(d.projects, color));
    if |d.projects| > 0 {
      CreativeSectionHeadingsOf("Projects", color, CreativeProjects(d.projects, color));
    }
  }

  lemma CreativeFootSelect(d: ResumeData, color: string, role: Role)
    ensures Select(CreativeFoot(d, color), role)
         == (Title("Education", role) + Select(SplitEducation(d.education, " - "), role))
          + (if |d.projects| > 0 then Title("Projects", role) + Select(CreativeProjects(d.projects, color), role) else [])
  {
    SelectAppend(CreativeSection("Education", color, SplitEducation(d.education, " - ")),
                 ProjectsBlock(d.projects, color), role);
    CreativeSectionSelect("Education", color, SplitEducation(d.education, " - "), role);
    if |d.projects| > 0 {
      CreativeSectionSelect("Projects", color, CreativeProjects(d.projects, color), role);
    }
  }

  lemma CreativeFootInstitutions(d: ResumeData, color: string)
    ensures Select(CreativeFoot(d, color), HeadingRole(3)) == Institutions(d.education)
  {
    CreativeFootSelect(d, color, HeadingRole(3));
    var a := Title("Education", HeadingRole(3)) + Select(SplitEducation(d.education, " - "), HeadingRole(3));
    var b := if |d.projects| > 0 then Title("Projects", HeadingRole(3)) + Select(CreativeProjects(d.projects, color), HeadingRole(3)) else [];
    assert a == Institutions(d.education);
    assert b == [];
    EmptyRight(a, b);
  }

  lemma CreativeFootMuted(d: ResumeData, color: string)
    ensures Select(CreativeFoot(d, color), MutedRole) == StudyRanges(d.education, " - ")
  {
    CreativeFootSelect(d, color, MutedRole);
    var a := Title("Education", MutedRole) + Select(SplitEducation(d.education, " - "), MutedRole);
    var b := if |d.projects| > 0 then Title("Projects", MutedRole) + Select(CreativeProjects(d.projects, color), MutedRole) else [];
    assert a == StudyRanges(d.education, " - ");
    assert b == [];
    EmptyRight(a, b);
  }

  lemma CreativeFootLinks(d: ResumeData, color: string)
    ensures Select(CreativeFoot(d, color), LinkRole) == ProjectNames(d.projects)
  {
    CreativeFootSelect(d, color, LinkRole);
    CreativeEducationNoLinks(d.education);
    var a := Title("Education", LinkRole) + Select(SplitEducation(d.education, " - "), LinkRole);
    var b := if |d.projects| > 0 then Title("Projects", LinkRole) + Select(CreativeProjects(d.projects, color), LinkRole) else [];
    assert a == [];
    EmptyLeft(a, b);
    assert b == ProjectNames(d.projects);
  }

  lemma CreativeFootText(d: ResumeData, color: string)
    ensures Select(CreativeFoot(d, color), TextRole) == DegreesAndFields(d.education) + ProjectDescriptions(d.projects)
  {
    CreativeFootSelect(d, color, TextRole);
    var a := Title("Education", TextRole) + Select(SplitEducation(d.education, " - "), TextRole);
    var b := if |d.projects| > 0 then Title("Projects", TextRole) + Select(CreativeProjects(d.projects, color), TextRole) else [];
    assert a == DegreesAndFields(d.education);
    assert b == ProjectDescriptions(d.projects);
  }

  /** The grid lists each institution with degree, field and study period,
      and each project's name as a link followed by its description; with
      no projects the grid shows no project content at all. */
  lemma CreativeFootContent(d: ResumeData, color: string)
    ensures Select(CreativeFoot(d, color), HeadingRole(3)) == Institutions(d.education)
    ensures Select(CreativeFoot(d, color), MutedRole) == StudyRanges(d.education, " - ")
    ensures Select(CreativeFoot(d, color), LinkRole) == ProjectNames(d.projects)
    ensures Select(CreativeFoot(d, color), TextRole) == DegreesAndFields(d.education) + ProjectDescriptions(d.projects)
  {
    CreativeFootInstitutions(d, color);
    CreativeFootMuted(d, color);
    CreativeFootLinks(d, color);
    CreativeFootText(d, color);
  }

  lemma {:induction false} CreativeEducationNoLinks(eds: seq<Education>)
    ensures Select(SplitEducation(eds, " - "), LinkRole) == []
    decreases |eds|
  {
    if eds != [] {
      CreativeEducationNoLinks(eds[1..]);
      SplitEducationStep(eds[0], " - ", SplitEducation(eds[1..], " - "), LinkRole);
    }
  }

  /** The ornamented layout never reads the address. */
  lemma CreativeIgnoresAddress(id: string, d: ResumeData, style: TemplateStyle, address: string)
    ensures CreativeTemplate(id, d, style)
         == CreativeTemplate(id, d.(personalInfo := d.personalInfo.(address := address)), style)
  {
  }
}
