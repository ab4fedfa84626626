/**
  The Word export: the résumé serialised as a flat sequence of paragraphs
  made of text runs. Unlike the on-screen templates, the document always
  has the five section headings, lists education without dates and joins
  skills with a comma.
 */
module DocxExport {
  import opened Seqs
  import opened Types

  /** One run of text with its character formatting. */
  datatype Run = Run(text: string, bold: bool, italics: bool, color: Option<string>)

  datatype ParagraphStyle = Normal | Heading1 | Heading2 | Bullet

  /** A paragraph: its style, whether it is centred, and its runs. */
  datatype Paragraph = Paragraph(style: ParagraphStyle, centered: bool, runs: seq<Run>)

  datatype DocxFile = DocxFile(name: string, paragraphs: seq<Paragraph>)

  /** The grey in which date lines are printed. */
  const DateColor: string := "888888"

  /** What sits between neighbouring contact details. */
  const ContactSeparator: string := " | "

  /** What sits between neighbouring skill names. */
  const SkillSeparator: string := ", "

  function PlainRun(text: string): Run
  {
    Run(text, false, false, None)
  }

  function BoldRun(text: string): Run
  {
    Run(text, true, false, None)
  }

  /** A paragraph holding a single unformatted run. */
  function TextParagraph(text: string): Paragraph
  {
    Paragraph(Normal, false, [PlainRun(text)])
  }

  /** The empty paragraph used as vertical space. */
  function Spacer(): Paragraph
  {
    TextParagraph("")
  }

  function SectionHeading(title: string): Paragraph
  {
    Paragraph(Heading2, false, [PlainRun(title)])
  }

  /** The text of the runs, one after the other. */
  function RunsText(runs: seq<Run>): string
  {
    if runs == [] then "" else runs[0].text + RunsText(runs[1..])
  }

  /** The text a paragraph shows. */
  function ParagraphText(p: Paragraph): string
  {
    RunsText(p.runs)
  }

  /* ---------------- Contact line ---------------- */

  predicate NonEmpty(s: string)
  {
    s != ""
  }

  /** The contact details printed under the name: the non-empty ones among
      email, phone, LinkedIn and website. */
  function ContactDetails(p: PersonalInfo): seq<string>
  {
    Filter([p.email, p.phone, p.linkedin, p.website], NonEmpty)
  }

  /** One run per detail, with a separator run between neighbours only. */
  function SeparatedRuns(details: seq<string>, sep: string): (r: seq<Run>)
    ensures |r| == if details == [] then 0 else 2 * |details| - 1
    ensures forall k :: 0 <= k < |r| ==> r[k] == if k % 2 == 0 then PlainRun(details[k / 2]) else PlainRun(sep)
    decreases |details|
  {
    if |details| <= 1 then
      if details == [] then [] else [PlainRun(details[0])]
    else
      [PlainRun(details[0]), PlainRun(sep)] + SeparatedRuns(details[1..], sep)
  }

  /** The separated runs read as the details joined by the separator. */
  lemma {:induction false} SeparatedRunsJoin(details: seq<string>, sep: string)
    ensures RunsText(SeparatedRuns(details, sep)) == Join(details, sep)
    decreases |details|
  {
    var r := SeparatedRuns(details, sep);
    if |details| == 1 {
      assert r[1..] == [];
    } else if |details| > 1 {
      var rest := SeparatedRuns(details[1..], sep);
      SeparatedRunsJoin(details[1..], sep);
      assert r[1..] == [PlainRun(sep)] + rest;
      assert r[1..][1..] == rest;
    }
  }

  /** The contact line: the present details, in order, each separated from
      the next by " | ", and nothing from the postal address. */
  lemma ContactLine(p: PersonalInfo)
    ensures RunsText(SeparatedRuns(ContactDetails(p), ContactSeparator))
         == Join(ContactDetails(p), ContactSeparator)
    ensures forall x :: x in ContactDetails(p) <==> x in [p.email, p.phone, p.linkedin, p.website] && x != ""
    ensures IsSubseq(ContactDetails(p), [p.email, p.phone, p.linkedin, p.website])
    ensures |SeparatedRuns(ContactDetails(p), ContactSeparator)|
         == if ContactDetails(p) == [] then 0 else 2 * |ContactDetails(p)| - 1
  {
    SeparatedRunsJoin(ContactDetails(p), ContactSeparator);
    FilterIsSubseq([p.email, p.phone, p.linkedin, p.website], NonEmpty);
  }

  /** With every detail filled in, the line lists all four in order. */
  lemma FullContactLine(p: PersonalInfo)
    requires p.email != "" && p.phone != "" && p.linkedin != "" && p.website != ""
    ensures ContactDetails(p) == [p.email, p.phone, p.linkedin, p.website]
  {
  }

  /* ---------------- Extraction ---------------- */

  /** The aspects of a document the properties speak about: the text of
      each paragraph of a given style, and the text of bold or coloured runs. */
  datatype Role = StyleRole(style: ParagraphStyle) | BoldRole | ColoredRole

  predicate Marks(run: Run, role: Role)
  {
    match role
    case StyleRole(_) => false
    case BoldRole => run.bold
    case ColoredRole => run.color.Some?
  }

  /** The texts of the runs of `runs` marked for `role`, in order. */
  function MarkedRuns(runs: seq<Run>, role: Role): seq<string>
  {
    if runs == [] then []
    else (if Marks(runs[0], role) then [runs[0].text] else []) + MarkedRuns(runs[1..], role)
  }

  /** What paragraph `p` contributes under `role`. */
  function Own(p: Paragraph, role: Role): seq<string>
  {
    match role
    case StyleRole(s) => if p.style == s then [ParagraphText(p)] else []
    case _ => MarkedRuns(p.runs, role)
  }

  /** What the paragraphs `ps` contribute under `role`, in order. */
  function Select(ps: seq<Paragraph>, role: Role): seq<string>
  {
    if ps == [] then [] else Own(ps[0], role) + Select(ps[1..], role)
  }

  /** Extraction distributes over concatenation. Deliberately parallel to
      Layout.SelectAppend, which states the same over preview nodes. */
  lemma {:induction false} SelectAppend(a: seq<Paragraph>, b: seq<Paragraph>, role: Role)
    ensures Select(a + b, role) == Select(a, role) + Select(b, role)
    decreases |a|
  {
    if a == [] {
      assert a + b == b;
    } else {
      assert (a + b)[0] == a[0];
      assert (a + b)[1..] == a[1..] + b;
      SelectAppend(a[1..], b, role);
    }
  }

  lemma SelectCons(p: Paragraph, rest: seq<Paragraph>, role: Role)
    ensures Select([p] + rest, role) == Own(p, role) + Select(rest, role)
  {
    assert ([p] + rest)[0] == p;
    assert ([p] + rest)[1..] == rest;
  }

  lemma SelectOne(p: Paragraph, role: Role)
    ensures Select([p], role) == Own(p, role)
  {
    assert [p][1..] == [];
  }

  lemma SelectThree(a: Paragraph, b: Paragraph, c: Paragraph, role: Role)
    ensures Select([a, b, c], role) == Own(a, role) + Own(b, role) + Own(c, role)
  {
    assert [a, b, c] == [a] + ([b] + [c]);
    SelectCons(a, [b] + [c], role);
    SelectCons(b, [c], role);
    SelectOne(c, role);
    AppendAssoc(Own(a, role), Own(b, role), Own(c, role));
  }

  /** What a one-run paragraph contributes. */
  lemma OneRunOwn(style: ParagraphStyle, centered: bool, r: Run, role: Role)
    ensures role.StyleRole? ==> Own(Paragraph(style, centered, [r]), role) == if role.style == style then [r.text] else []
    ensures !role.StyleRole? ==> Own(Paragraph(style, centered, [r]), role) == if Marks(r, role) then [r.text] else []
  {
    var runs := [r];
    assert runs[1..] == [];
    assert RunsText(runs) == r.text + RunsText([]);
    assert RunsText([]) == "";
    assert RunsText(runs) == r.text;
    assert ParagraphText(Paragraph(style, centered, runs)) == r.text;
    assert MarkedRuns(runs, role) == (if Marks(r, role) then [r.text] else []) + MarkedRuns([], role);
  }

  /** What a two-run paragraph contributes. */
  lemma TwoRunOwn(style: ParagraphStyle, centered: bool, r1: Run, r2: Run, role: Role)
    ensures role.StyleRole? ==> Own(Paragraph(style, centered, [r1, r2]), role) == if role.style == style then [r1.text + r2.text] else []
    ensures !role.StyleRole? ==>
              Own(Paragraph(style, centered, [r1, r2]), role)
                == (if Marks(r1, role) then [r1.text] else []) + (if Marks(r2, role) then [r2.text] else [])
  {
    var runs := [r1, r2];
    assert runs[1..] == [r2];
    assert [r2][1..] == [];
    assert RunsText([r2]) == r2.text + RunsText([]);
    assert RunsText(runs) == r1.text + RunsText([r2]);
    assert RunsText([]) == "";
    assert RunsText(runs) == r1.text + r2.text;
    assert ParagraphText(Paragraph(style, centered, runs)) == r1.text + r2.text;
    assert MarkedRuns([r2], role) == (if Marks(r2, role) then [r2.text] else []) + MarkedRuns([], role);
  }

  /** A single unformatted run shows under its paragraph's style only. */
  lemma TextParagraphOwn(text: string, style: ParagraphStyle, centered: bool, role: Role)
    ensures Own(Paragraph(style, centered, [PlainRun(text)]), role)
         == if role == StyleRole(style) then [text] else []
  {
    OneRunOwn(style, centered, PlainRun(text), role);
  }

  /* ---------------- Header, summary and skills ---------------- */

  /** Name, contact line, spacer. */
  function HeaderParagraphs(p: PersonalInfo): seq<Paragraph>
  {
    [Paragraph(Heading1, true, [PlainRun(p.name)]), ContactParagraph(p), Spacer()]
  }

  /** The centred contact line. */
  function ContactParagraph(p: PersonalInfo): Paragraph
  {
    Paragraph(Normal, true, SeparatedRuns(ContactDetails(p), ContactSeparator))
  }

  function SummaryParagraphs(summary: string): seq<Paragraph>
  {
    [SectionHeading("Summary"), TextParagraph(summary), Spacer()]
  }

  /** The skill names on one line, comma-separated. */
  function SkillsText(skills: seq<Skill>): string
  {
    Join(SkillNames(skills), SkillSeparator)
  }

  function SkillsParagraphs(skills: seq<Skill>): seq<Paragraph>
  {
    [SectionHeading("Skills"), TextParagraph(SkillsText(skills)), Spacer()]
  }

  /** No run of the contact line is bold or coloured. */
  lemma {:induction false} SeparatedRunsUnmarked(details: seq<string>, sep: string, role: Role)
    requires role == BoldRole || role == ColoredRole
    ensures MarkedRuns(SeparatedRuns(details, sep), role) == []
    decreases |details|
  {
    var r := SeparatedRuns(details, sep);
    if r != [] {
      SeparatedRunsUnmarked(details[1..], sep, role);
      if |details| > 1 {
        assert r[1..] == [PlainRun(sep)] + SeparatedRuns(details[1..], sep);
        assert ([PlainRun(sep)] + SeparatedRuns(details[1..], sep))[1..] == SeparatedRuns(details[1..], sep);
      } else {
        assert r[1..] == [];
      }
    }
  }

  /** The contact line shows the joined details as plain text. */
  lemma ContactParagraphOwn(p: PersonalInfo, role: Role)
    ensures Own(ContactParagraph(p), role)
         == if role == StyleRole(Normal) then [Join(ContactDetails(p), ContactSeparator)] else []
  {
    if role.StyleRole? {
      SeparatedRunsJoin(ContactDetails(p), ContactSeparator);
    } else {
      SeparatedRunsUnmarked(ContactDetails(p), ContactSeparator, role);
    }
  }

  lemma HeaderSelect(p: PersonalInfo, role: Role)
    ensures Select(HeaderParagraphs(p), role)
         == if role == StyleRole(Heading1) then [p.name]
            else if role == StyleRole(Normal) then [Join(ContactDetails(p), ContactSeparator), ""]
            else []
  {
    var title := Paragraph(Heading1, true, [PlainRun(p.name)]);
    SelectThree(title, ContactParagraph(p), Spacer(), role);
    TextParagraphOwn(p.name, Heading1, true, role);
    TextParagraphOwn("", Normal, false, role);
    ContactParagraphOwn(p, role);
  }

  /** A section heading, one text line and a spacer. */
  lemma HeadedLineSelect(title: string, line: string, role: Role)
    ensures Select([SectionHeading(title), TextParagraph(line), Spacer()], role)
         == if role == StyleRole(Heading2) then [title]
            else if role == StyleRole(Normal) then [line, ""]
            else []
  {
    SelectThree(SectionHeading(title), TextParagraph(line), Spacer(), role);
    TextParagraphOwn(title, Heading2, false, role);
    TextParagraphOwn(line, Normal, false, role);
    TextParagraphOwn("", Normal, false, role);
  }

  /* ---------------- Work experience ---------------- */

  /** One bullet paragraph per description line. */
  function BulletParagraphs(lines: seq<string>): (r: seq<Paragraph>)
    ensures |r| == |lines|
    ensures forall role :: Select(r, role) == if role == StyleRole(Bullet) then lines else []
    decreases |lines|
  {
    if lines == [] then []
    else
      var head := Paragraph(Bullet, false, [PlainRun(lines[0])]);
      var rest := BulletParagraphs(lines[1..]);
      assert forall role :: Select([head] + rest, role) == Own(head, role) + Select(rest, role) by {
        forall role ensures Select([head] + rest, role) == Own(head, role) + Select(rest, role) {
          SelectCons(head, rest, role);
        }
      }
      assert forall role :: Own(head, role) == if role == StyleRole(Bullet) then [lines[0]] else [] by {
        forall role ensures Own(head, role) == if role == StyleRole(Bullet) then [lines[0]] else [] {
          TextParagraphOwn(lines[0], Bullet, false, role);
        }
      }
      assert lines == [lines[0]] + lines[1..];
      [head] + rest
  }

  /** The first line of a job: the title in bold, then the company and
      location in italics. */
  function JobHeadline(j: WorkExperience): Paragraph
  {
    Paragraph(Normal, false, [BoldRun(j.jobTitle), Run(" | " + CompanyLine(j), false, true, None)])
  }

  /** The second line of a job: its date range, in grey. */
  function JobDates(j: WorkExperience): Paragraph
  {
    Paragraph(Normal, false, [Run(DateRange(j), false, false, Some(DateColor))])
  }

  /** One job: headline, dates, one bullet per description line, spacer. */
  function JobBlock(j: WorkExperience): seq<Paragraph>
  {
    [JobHeadline(j), JobDates(j)] + BulletParagraphs(j.description) + [Spacer()]
  }

  /** What one job contributes under each role. */
  function JobView(j: WorkExperience, role: Role): seq<string>
  {
    match role
    case StyleRole(s) =>
      if s == Normal then [j.jobTitle + " | " + CompanyLine(j), DateRange(j), ""]
      else if s == Bullet then j.description
      else []
    case BoldRole => [j.jobTitle]
    case ColoredRole => [DateRange(j)]
  }

  lemma JobHeadlineOwn(j: WorkExperience, role: Role)
    ensures Own(JobHeadline(j), role)
         == match role
            case StyleRole(s) => if s == Normal then [j.jobTitle + " | " + CompanyLine(j)] else []
            case BoldRole => [j.jobTitle]
            case ColoredRole => []
  {
    TwoRunOwn(Normal, false, BoldRun(j.jobTitle), Run(" | " + CompanyLine(j), false, true, None), role);
    assert j.jobTitle + (" | " + CompanyLine(j)) == j.jobTitle + " | " + CompanyLine(j);
  }

  lemma JobDatesOwn(j: WorkExperience, role: Role)
    ensures Own(JobDates(j), role)
         == match role
            case StyleRole(s) => if s == Normal then [DateRange(j)] else []
            case BoldRole => []
            case ColoredRole => [DateRange(j)]
  {
    OneRunOwn(Normal, false, Run(DateRange(j), false, false, Some(DateColor)), role);
  }

  /** Extraction from two paragraphs, a middle run of paragraphs and one
      closing paragraph. */
  lemma SelectFramed(a: Paragraph, b: Paragraph, mid: seq<Paragraph>, c: Paragraph, rest: seq<Paragraph>, role: Role)
    ensures Select([a, b] + mid + [c] + rest, role)
         == Own(a, role) + Own(b, role) + Select(mid, role) + Own(c, role) + Select(rest, role)
  {
    var tail := [c] + rest;
    assert [a, b] + mid + [c] + rest == [a] + ([b] + (mid + tail));
    SelectCons(a, [b] + (mid + tail), role);
    SelectCons(b, mid + tail, role);
    SelectAppend(mid, tail, role);
    SelectCons(c, rest, role);
    var x, y, m, z, r := Own(a, role), Own(b, role), Select(mid, role), Own(c, role), Select(rest, role);
    AppendAssoc(m, z, r);
    AppendAssoc(y, m + z, r);
    AppendAssoc(y, m, z);
    AppendAssoc(x, y + m + z, r);
    AppendAssoc(x, y + m, z);
    AppendAssoc(x, y, m);
  }

  lemma JobBlockSelect(j: WorkExperience, rest: seq<Paragraph>, role: Role)
    ensures Select(JobBlock(j) + rest, role)
         == Own(JobHeadline(j), role) + Own(JobDates(j), role)
          + Select(BulletParagraphs(j.description), role) + Own(Spacer(), role) + Select(rest, role)
  {
    SelectFramed(JobHeadline(j), JobDates(j), BulletParagraphs(j.description), Spacer(), rest, role);
  }

  lemma JobBlockStyleStep(j: WorkExperience, rest: seq<Paragraph>, s: ParagraphStyle)
    ensures Select(JobBlock(j) + rest, StyleRole(s)) == JobView(j, StyleRole(s)) + Select(rest, StyleRole(s))
  {
    var role := StyleRole(s);
    JobBlockSelect(j, rest, role);
    JobHeadlineOwn(j, role);
    JobDatesOwn(j, role);
    TextParagraphOwn("", Normal, false, role);
    var h := Own(JobHeadline(j), role);
    var t := Own(JobDates(j), role);
    var m := Select(BulletParagraphs(j.description), role);
    var sp := Own(Spacer(), role);
    if s == Normal {
      assert h + t + m + sp == JobView(j, role);
    } else if s == Bullet {
      assert h == [] && t == [] && sp == [];
      EmptyRight(h + t + m, sp);
      EmptyLeft(h + t, m);
    } else {
      assert h == [] && t == [] && m == [] && sp == [];
    }
  }

  lemma JobBlockRunStep(j: WorkExperience, rest: seq<Paragraph>, role: Role)
    requires role == BoldRole || role == ColoredRole
    ensures Select(JobBlock(j) + rest, role) == JobView(j, role) + Select(rest, role)
  {
    JobBlockSelect(j, rest, role);
    JobHeadlineOwn(j, role);
    JobDatesOwn(j, role);
    TextParagraphOwn("", Normal, false, role);
  }

  lemma JobBlockStep(j: WorkExperience, rest: seq<Paragraph>, role: Role)
    ensures Select(JobBlock(j) + rest, role) == JobView(j, role) + Select(rest, role)
  {
    if role.StyleRole? {
      JobBlockStyleStep(j, rest, role.style);
    } else {
      JobBlockRunStep(j, rest, role);
    }
  }

  /** All jobs, in list order: their titles in bold, their date ranges in
      grey, and every bullet. */
  function JobBlocks(jobs: seq<WorkExperience>): (r: seq<Paragraph>)
    ensures |r| == 3 * |jobs| + BulletCount(jobs)
    ensures Select(r, StyleRole(Heading1)) == []
    ensures Select(r, StyleRole(Heading2)) == []
    ensures Select(r, StyleRole(Bullet)) == AllBullets(jobs)
    ensures Select(r, BoldRole) == JobTitles(jobs)
    ensures Select(r, ColoredRole) == DateRanges(jobs)
    decreases |jobs|
  {
    if jobs == [] then []
    else
      var rest := JobBlocks(jobs[1..]);
      JobBlockStep(jobs[0], rest, StyleRole(Heading1));
      JobBlockStep(jobs[0], rest, StyleRole(Heading2));
      JobBlockStep(jobs[0], rest, StyleRole(Bullet));
      JobBlockStep(jobs[0], rest, BoldRole);
      JobBlockStep(jobs[0], rest, ColoredRole);
      JobBlock(jobs[0]) + rest
  }

  function WorkParagraphs(jobs: seq<WorkExperience>): seq<Paragraph>
  {
    [SectionHeading("Work Experience")] + JobBlocks(jobs)
  }

  /* ---------------- Education ---------------- */

  /** One education entry: degree and field in bold, then the institution.
      No dates are printed. */
  function EducationLine(e: Education): Paragraph
  {
    Paragraph(Normal, false, [BoldRun(DegreeLine(e)), PlainRun(" | " + e.institution)])
  }

  lemma EducationLineStep(e: Education, rest: seq<Paragraph>, role: Role)
    ensures Select([EducationLine(e)] + rest, role)
         == (match role
             case StyleRole(s) => if s == Normal then [DegreeLine(e) + " | " + e.institution] else []
             case BoldRole => [DegreeLine(e)]
             case ColoredRole => [])
          + Select(rest, role)
  {
    SelectCons(EducationLine(e), rest, role);
    TwoRunOwn(Normal, false, BoldRun(DegreeLine(e)), PlainRun(" | " + e.institution), role);
    assert DegreeLine(e) + (" | " + e.institution) == DegreeLine(e) + " | " + e.institution;
  }

  function EducationLines(eds: seq<Education>): (r: seq<Paragraph>)
    ensures |r| == |eds|
    ensures Select(r, StyleRole(Heading1)) == []
    ensures Select(r, StyleRole(Heading2)) == []
    ensures Select(r, StyleRole(Bullet)) == []
    ensures Select(r, BoldRole) == DegreeLines(eds)
    ensures Select(r, ColoredRole) == []
    decreases |eds|
  {
    if eds == [] then []
    else
      var rest := EducationLines(eds[1..]);
      EducationLineStep(eds[0], rest, StyleRole(Heading1));
      EducationLineStep(eds[0], rest, StyleRole(Heading2));
      EducationLineStep(eds[0], rest, StyleRole(Bullet));
      EducationLineStep(eds[0], rest, BoldRole);
      EducationLineStep(eds[0], rest, ColoredRole);
      [EducationLine(eds[0])] + rest
  }

  function EducationParagraphs(eds: seq<Education>): seq<Paragraph>
  {
    [SectionHeading("Education")] + EducationLines(eds) + [Spacer()]
  }

  /* ---------------- Projects ---------------- */

  /** One project: its name in bold with its address, then its description. */
  function ProjectBlock(p: Project): seq<Paragraph>
  {
    [Paragraph(Normal, false, [BoldRun(p.name), PlainRun(" | " + p.url)]), TextParagraph(p.description)]
  }

  lemma ProjectBlockStep(p: Project, rest: seq<Paragraph>, role: Role)
    ensures Select(ProjectBlock(p) + rest, role)
         == (match role
             case StyleRole(s) => if s == Normal then [p.name + " | " + p.url, p.description] else []
             case BoldRole => [p.name]
             case ColoredRole => [])
          + Select(rest, role)
  {
    var head := ProjectBlock(p)[0];
    assert ProjectBlock(p) + rest == [head] + ([TextParagraph(p.description)] + rest);
    SelectCons(head, [TextParagraph(p.description)] + rest, role);
    SelectCons(TextParagraph(p.description), rest, role);
    TextParagraphOwn(p.description, Normal, false, role);
    TwoRunOwn(Normal, false, BoldRun(p.name), PlainRun(" | " + p.url), role);
    assert p.name + (" | " + p.url) == p.name + " | " + p.url;
  }

  function ProjectBlocks(projects: seq<Project>): (r: seq<Paragraph>)
    ensures |r| == 2 * |projects|
    ensures Select(r, StyleRole(Heading1)) == []
    ensures Select(r, StyleRole(Heading2)) == []
    ensures Select(r, StyleRole(Bullet)) == []
    ensures Select(r, BoldRole) == ProjectNames(projects)
    ensures Select(r, ColoredRole) == []
    decreases |projects|
  {
    if projects == [] then []
    else
      var rest := ProjectBlocks(projects[1..]);
      ProjectBlockStep(projects[0], rest, StyleRole(Heading1));
      ProjectBlockStep(projects[0], rest, StyleRole(Heading2));
      ProjectBlockStep(projects[0], rest, StyleRole(Bullet));
      ProjectBlockStep(projects[0], rest, BoldRole);
      ProjectBlockStep(projects[0], rest, ColoredRole);
      ProjectBlock(projects[0]) + rest
  }

  function ProjectParagraphs(projects: seq<Project>): seq<Paragraph>
  {
    [SectionHeading("Projects")] + ProjectBlocks(projects)
  }

  /* ---------------- The document ---------------- */

  /** The whole document, part by part. */
  function Document(d: ResumeData): seq<Paragraph>
  {
    HeaderParagraphs(d.personalInfo)
      + SummaryParagraphs(d.summary)
      + WorkParagraphs(d.workExperience)
      + EducationParagraphs(d.education)
      + SkillsParagraphs(d.skills)
      + ProjectParagraphs(d.projects)
  }

  /** The export: the document under the given base name with the Word
      extension. */
  function ExportToDocx(d: ResumeData, fileName: string): (f: DocxFile)
    ensures f.name == fileName + ".docx"
    ensures f.paragraphs == Document(d)
  {
    DocxFile(fileName + ".docx", Document(d))
  }

  /** Paragraph count: thirteen fixed paragraphs, three plus one per bullet
      for each job, one per education entry and two per project. */
  lemma DocumentLength(d: ResumeData)
    ensures |Document(d)|
         == 13 + 3 * |d.workExperience| + BulletCount(d.workExperience)
          + |d.education| + 2 * |d.projects|
  {
  }

  /** Extraction from the document, given what each part contributes:
      the header, the summary, then each headed list section. */
  lemma DocumentSelect(d: ResumeData, role: Role, header: seq<string>, summary: seq<string>,
                       workTitle: seq<string>, work: seq<string>, educationTitle: seq<string>, education: seq<string>,
                       spacer: seq<string>, skills: seq<string>, projectsTitle: seq<string>, projects: seq<string>,
                       all: seq<string>)
    requires Select(HeaderParagraphs(d.personalInfo), role) == header
    requires Select(SummaryParagraphs(d.summary), role) == summary
    requires Own(SectionHeading("Work Experience"), role) == workTitle
    requires Select(JobBlocks(d.workExperience), role) == work
    requires Own(SectionHeading("Education"), role) == educationTitle
    requires Select(EducationLines(d.education), role) == education
    requires Own(Spacer(), role) == spacer
    requires Select(SkillsParagraphs(d.skills), role) == skills
    requires Own(SectionHeading("Projects"), role) == projectsTitle
    requires Select(ProjectBlocks(d.projects), role) == projects
    requires header + summary + (workTitle + work) + (educationTitle + education + spacer) + skills + (projectsTitle + projects) == all
    ensures Select(Document(d), role) == all
  {
    var h := HeaderParagraphs(d.personalInfo);
    var s := SummaryParagraphs(d.summary);
    var w := WorkParagraphs(d.workExperience);
    var ed := EducationParagraphs(d.education);
    var k := SkillsParagraphs(d.skills);
    var p := ProjectParagraphs(d.projects);
    SelectAppend(h + s + w + ed + k, p, role);
    SelectAppend(h + s + w + ed, k, role);
    SelectAppend(h + s + w, ed, role);
    SelectAppend(h + s, w, role);
    SelectAppend(h, s, role);
    SelectCons(SectionHeading("Work Experience"), JobBlocks(d.workExperience), role);
    SelectCons(SectionHeading("Projects"), ProjectBlocks(d.projects), role);
    SelectAppend([SectionHeading("Education")] + EducationLines(d.education), [Spacer()], role);
    SelectCons(SectionHeading("Education"), EducationLines(d.education), role);
    SelectOne(Spacer(), role);
  }

  /** The fixed parts under every role but plain text. */
  lemma FixedPartsSelect(d: ResumeData, role: Role)
    requires role != StyleRole(Normal)
    ensures Select(HeaderParagraphs(d.personalInfo), role) == if role == StyleRole(Heading1) then [d.personalInfo.name] else []
    ensures Select(SummaryParagraphs(d.summary), role) == if role == StyleRole(Heading2) then ["Summary"] else []
    ensures Select(SkillsParagraphs(d.skills), role) == if role == StyleRole(Heading2) then ["Skills"] else []
    ensures Own(SectionHeading("Work Experience"), role) == if role == StyleRole(Heading2) then ["Work Experience"] else []
    ensures Own(SectionHeading("Education"), role) == if role == StyleRole(Heading2) then ["Education"] else []
    ensures Own(SectionHeading("Projects"), role) == if role == StyleRole(Heading2) then ["Projects"] else []
    ensures Own(Spacer(), role) == []
  {
    HeaderSelect(d.personalInfo, role);
    HeadedLineSelect("Summary", d.summary, role);
    HeadedLineSelect("Skills", SkillsText(d.skills), role);
    TextParagraphOwn("Work Experience", Heading2, false, role);
    TextParagraphOwn("Education", Heading2, false, role);
    TextParagraphOwn("Projects", Heading2, false, role);
    TextParagraphOwn("", Normal, false, role);
  }

  /** The section headings are always the same five, in this order, however
      empty the lists are. */
  lemma DocumentSectionHeadings(d: ResumeData)
    ensures Select(Document(d), StyleRole(Heading2)) == ["Summary", "Work Experience", "Education", "Skills", "Projects"]
  {
    var role := StyleRole(Heading2);
    assert [] + ["Summary"] + (["Work Experience"] + []) + (["Education"] + [] + []) + ["Skills"] + (["Projects"] + []) == ["Summary", "Work Experience", "Education", "Skills", "Projects"];
    FixedPartsSelect(d, role);
    DocumentSelect(d, role, [], ["Summary"], ["Work Experience"], [], ["Education"], [], [], ["Skills"], ["Projects"], [], ["Summary", "Work Experience", "Education", "Skills", "Projects"]);
  }

  /** The only title-level paragraph is the name. */
  lemma DocumentTitle(d: ResumeData)
    ensures Select(Document(d), StyleRole(Heading1)) == [d.personalInfo.name]
  {
    var role := StyleRole(Heading1);
    assert [d.personalInfo.name] + [] + ([] + []) + ([] + [] + []) + [] + ([] + []) == [d.personalInfo.name];
    FixedPartsSelect(d, role);
    DocumentSelect(d, role, [d.personalInfo.name], [], [], [], [], [], [], [], [], [], [d.personalInfo.name]);
  }

  /** Every bullet of every job, job by job, and nothing else is a bullet. */
  lemma DocumentBullets(d: ResumeData)
    ensures Select(Document(d), StyleRole(Bullet)) == AllBullets(d.workExperience)
  {
    var role := StyleRole(Bullet);
    var bullets := AllBullets(d.workExperience);
    assert [] + [] + ([] + bullets) + ([] + [] + []) + [] + ([] + []) == bullets;
    FixedPartsSelect(d, role);
    DocumentSelect(d, role, [], [], [], bullets, [], [], [], [], [], [], bullets);
  }

  /** The grey runs are exactly the jobs' date ranges, in list order:
      education and projects carry no dates. */
  lemma DocumentDates(d: ResumeData)
    ensures Select(Document(d), ColoredRole) == DateRanges(d.workExperience)
  {
    var role := ColoredRole;
    var dates := DateRanges(d.workExperience);
    assert [] + [] + ([] + dates) + ([] + [] + []) + [] + ([] + []) == dates;
    FixedPartsSelect(d, role);
    DocumentSelect(d, role, [], [], [], dates, [], [], [], [], [], [], dates);
  }

  /** The bold runs: job titles, then degree lines, then project names. */
  lemma DocumentBold(d: ResumeData)
    ensures Select(Document(d), BoldRole)
         == JobTitles(d.workExperience) + DegreeLines(d.education) + ProjectNames(d.projects)
  {
    var role := BoldRole;
    var titles := JobTitles(d.workExperience);
    var degrees := DegreeLines(d.education);
    var names := ProjectNames(d.projects);
    assert [] + [] + ([] + titles) + ([] + degrees + []) + [] + ([] + names) == titles + degrees + names;
    FixedPartsSelect(d, role);
    DocumentSelect(d, role, [], [], [], titles, [], degrees, [], [], [], names, titles + degrees + names);
  }

  /** The fixed positions: the centred name first, the centred contact
      line second, a spacer, the summary heading and the summary text, a
      spacer, and the work heading seventh. */
  lemma DocumentOpening(d: ResumeData)
    ensures |Document(d)| >= 13
    ensures Document(d)[0] == Paragraph(Heading1, true, [PlainRun(d.personalInfo.name)])
    ensures ParagraphText(Document(d)[1]) == Join(ContactDetails(d.personalInfo), ContactSeparator)
    ensures Document(d)[1].centered
    ensures Document(d)[2] == Spacer() && Document(d)[5] == Spacer()
    ensures Document(d)[3] == SectionHeading("Summary") && Document(d)[4] == TextParagraph(d.summary)
    ensures Document(d)[6] == SectionHeading("Work Experience")
  {
    var h := HeaderParagraphs(d.personalInfo);
    var hs := h + SummaryParagraphs(d.summary);
    var hsw := hs + WorkParagraphs(d.workExperience);
    var hswe := hsw + EducationParagraphs(d.education);
    var hswek := hswe + SkillsParagraphs(d.skills);
    var doc := Document(d);
    assert doc == hswek + ProjectParagraphs(d.projects);
    assert |hsw| >= 7;
    assert forall i :: 0 <= i < 7 ==> doc[i] == hswek[i] == hswe[i] == hsw[i];
    assert hsw[6] == SectionHeading("Work Experience");
    assert hsw[0] == h[0] && hsw[1] == h[1] && hsw[2] == h[2];
    assert hsw[3] == hs[3] && hsw[4] == hs[4] && hsw[5] == hs[5];
    SeparatedRunsJoin(ContactDetails(d.personalInfo), ContactSeparator);
  }

  /** The skills section sits after the header, summary, work and
      education paragraphs: its heading, then one paragraph holding the
      names joined by ", ". */
  lemma SkillsLine(d: ResumeData)
    ensures ParagraphText(SkillsParagraphs(d.skills)[1]) == Join(SkillNames(d.skills), ", ")
    ensures var k := 9 + 3 * |d.workExperience| + BulletCount(d.workExperience) + |d.education|;
      && k + 1 < |Document(d)|
      && Document(d)[k] == SectionHeading("Skills")
      && ParagraphText(Document(d)[k + 1]) == Join(SkillNames(d.skills), ", ")
  {
    var before := HeaderParagraphs(d.personalInfo) + SummaryParagraphs(d.summary)
      + WorkParagraphs(d.workExperience) + EducationParagraphs(d.education);
    var skills := SkillsParagraphs(d.skills);
    assert Document(d) == before + skills + ProjectParagraphs(d.projects);
    assert |before| == 9 + 3 * |d.workExperience| + BulletCount(d.workExperience) + |d.education|;
    assert (before + skills)[|before|] == skills[0] && (before + skills)[|before| + 1] == skills[1];
    TextParagraphOwn(SkillsText(d.skills), Normal, false, StyleRole(Normal));
  }
}
