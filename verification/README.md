# Résumé document engine — a Dafny model

This project models the core of a browser résumé builder:

- the résumé value: a personal-information record, a summary, and four id-keyed lists (jobs, education, skills, projects);
- the sample document and the style options the editor starts from;
- the action reducer through which every edit passes;
- the three page templates (Modern, Professional, Creative) and the dispatcher that chooses one by tag;
- the two exports: a PDF made by slicing one tall capture of the preview across letter pages, and a Word document built paragraph by paragraph from the data.

Everything is a pure function over immutable datatypes. The exceptions are the PDF export and its pagination loop, which are methods; the loop carries its invariants.

A template is modelled as a sequence of abstract layout nodes (headings, text lines, muted lines, list items, chips and links) grouped into page regions. A Word document is modelled as a sequence of paragraphs made of runs. Both are specified through role-based extraction:

- `Layout.Select(nodes, role)` lists the strings a page shows in a given role, in order;
- `DocxExport.Select(paragraphs, role)` does the same for the Word document: paragraphs of one style, bold runs, or grey runs.

Most contracts say which data each role shows, and in which order.

Modules, in dependency order:

- `Seqs` (seqs.dfy): filtering, sub-sequences, key uniqueness and `Join`.
- `Types` (types.dfy): the records, the template tag, and the per-list projections the views print.
- `Constants` (constants.dfy): the sample résumé, the template, font and colour lists, and the initial style.
- `Reducer` (reducer.dfy): the actions and the reducer.
- `ReducerLaws` (reducer_laws.dfy): laws relating several reducer steps.
- `Layout` (layout.dfy): nodes, regions, pages and `Select`.
- `Templates` (templates.dfy): the three templates.
- `Renderer` (renderer.dfy): the dispatcher.
- `PdfExport` (pdf.dfy): the PDF export.
- `DocxExport` (docx.dfy): the Word export.
- `ExportAgreement` (agreement.dfy): the two export buttons, and where the exports agree with the preview.

Behaviour of the code that the model keeps:

- The chosen font id is passed to the page unchanged. The code has no fallback font.
- Modern shows no projects, no website and no address.
- Creative shows the Projects section only for a non-empty list, and the website link only for a non-empty website.
- Creative's work section is titled "Experience".
- Professional prints education dates as `start-end`, with no spaces.

## Model

| member | source | states |
|---|---|---|
| Types.ParseTemplateTag | types.ts:72-76 | a parsed tag, when there is one, is the tag of the variant it names; any other string yields no variant |
| Types.TemplateTagRoundTrip | types.ts:72-76 | each of the three variants is recovered from its run-time tag |
| Types.TemplateTagInjective | types.ts:72-76 | distinct variants carry distinct tags |
| Types.CurrentJobIgnoresEndDate | components/ResumeTemplates.tsx:40 | for a current job, the date line reads "start - Present" whatever end date is stored |
| Types.ProjectionsPointwise | components/ResumeTemplates.tsx:36-47 | the per-list projections the views print have one entry per list element, in list order |
| Constants.InitialIdsUnique | constants.ts:13-68 | within each list of the sample résumé, the ids are pairwise distinct |
| Constants.InitialResumeComplete | constants.ts:3-68 | every list of the sample résumé is non-empty, every contact field is non-empty, and so is the summary |
| Constants.InitialJobsDated | constants.ts:15-35 | the first sample job is current and stores "Present"; the second is not current and stores "Dec 2017" |
| Constants.TemplatesListEachOnce | constants.ts:71-75 | the template list names every variant exactly once, with Modern first |
| Constants.FontOptionsAndInitialStyle | constants.ts:77-101 | the font ids are pairwise distinct, and the initial style takes the first font id and the first colour's hex value |
| Reducer.SameEverywhere | App.tsx:86-114 | a document that agrees with another in every section is that document |
| Reducer.SetContact | App.tsx:91-92 | setting a contact field changes that field to the value and leaves the other five as they were |
| Reducer.ContactExtensional | types.ts:2-9 | a contact record is determined by its six fields |
| Reducer.SetWork | App.tsx:89-90 | setting a job field changes that field only; the id and the other fields stay as they were |
| Reducer.WorkExtensional | types.ts:11-20 | a job is determined by its id and its seven editable fields |
| Reducer.WorkEditUnique | App.tsx:89-90 | exactly one job is "this job with that field set", so the edit is fully determined |
| Reducer.SetEducation | App.tsx:89-90 | setting an education field changes that field only |
| Reducer.SetProject | App.tsx:89-90 | setting a project field changes that field only |
| Reducer.RemoveByKey | App.tsx:108-109 | the result keeps exactly the elements whose id differs, with their multiplicities and in their original order; nothing is removed when no element has the id; afterwards no element has it |
| Reducer.ApplyItemField | App.tsx:89-90 | an indexed field edit changes only the named field of the element at that index; the list length, the other elements and the other sections are unchanged |
| Reducer.ApplyContactField | App.tsx:91-92 | a contact edit sets exactly the named field and changes no other field or section |
| Reducer.ApplyReplaceSection | App.tsx:93-94 | an edit without an index replaces the whole section with the value and changes no other section |
| Reducer.ApplyUpdateBullet | App.tsx:97-98 | exactly one bullet of one job becomes the new text; the bullet count, the other bullets, the job's other fields, the other jobs and the other sections are unchanged |
| Reducer.NewItemIdInjective | App.tsx:101 | different stamps give different new ids |
| Reducer.ApplyAddItem | App.tsx:100-106 | adding an item appends exactly one element, so the old list is a prefix of the new one; the new element has the new id and empty or false fields, and a new job has the description `[""]`; other sections are unchanged |
| Reducer.ApplyRemoveItem | App.tsx:108-109 | removal filters only the named list by id and changes no other section |
| Reducer.Reduce | App.tsx:86-114 | loading a résumé returns it verbatim; every other action changes only the sections it targets |
| ReducerLaws.RemoveByKeyAppend | App.tsx:109 | removing by id distributes over concatenation |
| ReducerLaws.RemoveAppended | App.tsx:109 | removing the id of an appended fresh element gives back the list before the append |
| ReducerLaws.RemoveKeepsUniqueKeys | App.tsx:109 | removal keeps ids pairwise distinct |
| ReducerLaws.IdsUniqueByList | App.tsx:100-109 | the document's id uniqueness is exactly the uniqueness of each of its four lists |
| ReducerLaws.FreshIdByList | App.tsx:100-109 | an id is absent from a list's ids exactly when no element of that list carries it |
| ReducerLaws.AppendedIsSnoc | App.tsx:102-105 | an append of one element is the old list followed by that element |
| ReducerLaws.AddThenRemoveRestores | App.tsx:100-109 | adding an item with a fresh id and then removing that id restores the original document |
| ReducerLaws.AppendFreshKeepsUniqueKeys | App.tsx:102-105 | appending an element with a fresh id keeps ids pairwise distinct |
| ReducerLaws.AddKeepsIdsUnique | App.tsx:100-106 | adding an item with a fresh id keeps every list's ids pairwise distinct |
| ReducerLaws.RemoveKeepsIdsUnique | App.tsx:108-109 | removal keeps every list's ids pairwise distinct |
| ReducerLaws.RemoveMissingIsNoOp | App.tsx:108-109 | removing an id no element carries leaves the document unchanged |
| ReducerLaws.RemoveIdempotent | App.tsx:108-109 | removing the same id twice is the same as removing it once |
| ReducerLaws.EditsKeepIds | App.tsx:88-98 | field, contact and bullet edits never change any list's ids, for the editable field names the editor passes (see Reducer.ApplyItemField under "Left out") |
| ReducerLaws.UpdateBulletIsDescriptionEdit | App.tsx:90-98 | a bullet edit is the same as an indexed edit of the job's description with that one line replaced |
| Layout.Items | components/ResumeTemplates.tsx:43-45 | a bullet list shows its lines as list items, one per line and in order, and nothing in any other role |
| Templates.NormalizeUrl | components/ResumeTemplates.tsx:142 | the link target starts with "http"; a URL that already does is kept, and any other gets "https://" in front |
| Templates.NormalizeUrlIdempotent | components/ResumeTemplates.tsx:142 | normalising twice is the same as normalising once, and the original URL is a suffix of the target |
| Templates.ModernJobs | components/ResumeTemplates.tsx:36-47 | Modern shows each job's title as a heading, its date range as a muted line, its company line as text, and its bullets as items, job by job in list order |
| Templates.ModernEducation | components/ResumeTemplates.tsx:50-58 | Modern shows each institution as a heading, "degree, field" as text, and "start - end" as a muted line, in list order |
| Templates.ModernHeaderContent | components/ResumeTemplates.tsx:23-32 | Modern's header shows the name in the primary colour and only email, phone and linkedin |
| Templates.ModernMainContent | components/ResumeTemplates.tsx:33-63 | Modern's main column: its job and institution headings, date lines, bullets and text lines, in document order, with the skills as one " \| "-joined line |
| Templates.ModernSections | components/ResumeTemplates.tsx:34-60 | Modern's section headings are Summary, Work Experience, Education and Skills, in that order, each underlined in the primary colour; there is no Projects section |
| Templates.ModernIgnoresProjectsWebsiteAddress | components/ResumeTemplates.tsx:21-65 | the Modern page does not depend on the projects, the website or the address |
| Templates.SplitEducation | components/ResumeTemplates.tsx:87-94 | the two-line education layout shows each institution as a heading, degree and field as two text lines, and "start&lt;sep&gt;end" as a muted line, in list order |
| Templates.ProfessionalJobs | components/ResumeTemplates.tsx:101-109 | Professional shows "title \| company" as each job's heading, "location \| dates" as its text, and its bullets as items, in list order |
| Templates.ProfessionalSidebarContent | components/ResumeTemplates.tsx:70-97 | the sidebar shows the name, the four contact values, the skills as list items, and the education entries with "start-end" dates without spaces |
| Templates.ProfessionalSidebarSections | components/ResumeTemplates.tsx:80-86 | the sidebar's section headings are Skills, then Education |
| Templates.ProfessionalMainContent | components/ResumeTemplates.tsx:98-111 | the main column holds Summary and Work Experience, with the summary, the job headlines and lines, and every bullet in order |
| Templates.ProfessionalIgnoresProjectsAddress | components/ResumeTemplates.tsx:68-113 | the Professional page does not depend on the projects or the address |
| Templates.CreativeJobs | components/ResumeTemplates.tsx:158-171 | Creative shows each job's title, company line, date range and bullets, in list order |
| Templates.JobsAgreeAcrossLayouts | components/ResumeTemplates.tsx:158-171 | Modern and Creative show exactly the same job content in every role |
| Templates.SkillChips | components/ResumeTemplates.tsx:178-182 | one chip per skill, in the primary colour, showing the skill names in order and nothing else |
| Templates.CreativeProjects | components/ResumeTemplates.tsx:206-213 | each project shows its name as a link to its normalised URL, then its description, in list order |
| Templates.ProjectTargetsAreWebAddresses | components/ResumeTemplates.tsx:208 | every project link has one target, and each starts with "http" |
| Templates.CreativeHeaderContent | components/ResumeTemplates.tsx:131-146 | Creative's header shows the name in the primary colour and links to email, phone and linkedin, plus the website exactly when it is non-empty; the link targets are "mailto:" + email, "tel:" + phone, "https://" + linkedin and the website normalised to start with "http" |
| Templates.CreativeMainContent | components/ResumeTemplates.tsx:149-184 | the main band has the sections Summary, Experience and Skills, with the summary, the jobs in order and one chip per skill |
| Templates.CreativeFootSections | components/ResumeTemplates.tsx:187-218 | the bottom grid has an Education section, and a Projects section exactly when there are projects |
| Templates.CreativeFootContent | components/ResumeTemplates.tsx:189-216 | the bottom grid shows the institutions, "start - end" dates, degrees and fields, and the projects' names and descriptions, in list order |
| Templates.CreativeEducationNoLinks | components/ResumeTemplates.tsx:191-198 | education entries carry no links |
| Templates.CreativeIgnoresAddress | components/ResumeTemplates.tsx:128-221 | the Creative page does not depend on the address |
| Renderer.Render | components/TemplateRenderer.tsx:12-21 | every variant mounts at the root id "resume-preview-content" with the chosen font unchanged, and has a header or sidebar followed by a main column |
| Renderer.RenderTag | components/TemplateRenderer.tsx:22-23 | a tag that names no variant renders the Modern page |
| Renderer.RenderTagKnown | components/TemplateRenderer.tsx:15-21 | the tag of each variant renders that variant, with the data and style passed through |
| Renderer.MainColumnOfEach | components/TemplateRenderer.tsx:16-21 | the dispatcher's main column is the chosen template's main column for the same data and colour |
| Renderer.EveryTemplateShowsAllBullets | components/ResumeTemplates.tsx:43-45 | whichever variant is chosen, the main column's list items are every bullet of every job, in order |
| Renderer.EveryTemplateLeadsWithSummary | components/ResumeTemplates.tsx:34 | whichever variant is chosen, the first text line of the main column is the summary |
| PdfExport.ScaledHeight | lib/exporter.ts:50-52 | the image keeps its aspect ratio at full page width: height × canvas width = canvas height × page width |
| PdfExport.ScaledHeightIgnoresResolution | lib/exporter.ts:34-52 | scaling the capture's resolution does not change the image height on the page |
| PdfExport.CaptureScaleKeepsHeight | lib/exporter.ts:34-52 | the capture at scale 2 gives the same image height on the page as a capture at scale 1 |
| PdfExport.PagesNeeded | lib/exporter.ts:57-65 | at least one page; the pages cover the image; one page fewer would not |
| PdfExport.PagesNeededUnique | lib/exporter.ts:57-65 | those three facts determine the page count |
| PdfExport.PagesNeededIsCeiling | lib/exporter.ts:57-65 | the page count is max(1, ceil(image height / page height)) |
| PdfExport.PagesNeededMonotone | lib/exporter.ts:57-65 | a taller image never needs fewer pages |
| PdfExport.Paginate | lib/exporter.ts:54-65 | the loop terminates and emits exactly that many pages; page k draws the whole image at full width, shifted up by k page heights |
| PdfExport.ConsecutivePagesAbut | lib/exporter.ts:61-63 | consecutive pages are offset by exactly one page height, so no slice is skipped or repeated |
| PdfExport.ExportToPdf | lib/exporter.ts:10-77 | a missing element only reports an error and creates no clone; otherwise the clone is attached first and removed last, whether the capture fails (error reported, no file) or succeeds (a file named "&lt;name&gt;.pdf" with the paginated pages) |
| DocxExport.SeparatedRuns | lib/exporter.ts:89-95 | the details alternate with separator runs: n details give 2n−1 runs, detail k at position 2k and a separator between each pair |
| DocxExport.SeparatedRunsJoin | lib/exporter.ts:89-95 | the run texts read as the details joined by the separator |
| DocxExport.ContactLine | lib/exporter.ts:82-95 | the contact line holds exactly the non-empty values among email, phone, linkedin and website, in that order, with n−1 " \| " separators; the address never appears |
| DocxExport.FullContactLine | lib/exporter.ts:82-87 | when all four values are non-empty, all four appear, in order |
| DocxExport.ContactParagraphOwn | lib/exporter.ts:101-104 | the contact paragraph is one normal paragraph with no bold or grey runs |
| DocxExport.HeaderSelect | lib/exporter.ts:100-105 | the header is the name as the only title, then the contact line and a blank spacer |
| DocxExport.BulletParagraphs | lib/exporter.ts:120 | one bullet paragraph per description line, in order, and nothing else |
| DocxExport.JobHeadlineOwn | lib/exporter.ts:111-116 | a job's first paragraph has the title as its only bold run, followed by " \| company, location" |
| DocxExport.JobDatesOwn | lib/exporter.ts:117-119 | a job's second paragraph is its date range, which follows the "Present" rule, in grey |
| DocxExport.JobBlocks | lib/exporter.ts:110-122 | the job blocks hold 3 paragraphs plus one per bullet for each job; their bullets, bold titles and grey dates are the jobs' own, in order; they contain no headings |
| DocxExport.EducationLines | lib/exporter.ts:124-129 | one paragraph per education entry, with "degree, field" in bold, and no grey (date) runs |
| DocxExport.ProjectBlocks | lib/exporter.ts:135-143 | two paragraphs per project, with the project names in bold, in order |
| DocxExport.DocumentLength | lib/exporter.ts:98-144 | the document has 13 + Σ(3 + bullets) over jobs + one per education entry + two per project paragraphs |
| DocxExport.DocumentSectionHeadings | lib/exporter.ts:106-134 | the section headings are Summary, Work Experience, Education, Skills and Projects, in that order, whatever the lists hold |
| DocxExport.DocumentTitle | lib/exporter.ts:100 | the name is the document's only title |
| DocxExport.DocumentBullets | lib/exporter.ts:110-122 | the bullet paragraphs are every job's bullets, in order |
| DocxExport.DocumentDates | lib/exporter.ts:118-129 | the grey lines are exactly the job date ranges, in order; education carries no dates |
| DocxExport.DocumentBold | lib/exporter.ts:113-138 | the bold runs are the job titles, then the degree lines, then the project names |
| DocxExport.DocumentOpening | lib/exporter.ts:100-109 | the document opens with the centred name, the contact line, a spacer, the Summary heading, the summary text, a spacer and the Work Experience heading |
| DocxExport.SkillsLine | lib/exporter.ts:131-132 | after the header, summary, work and education paragraphs (at position 9 + 3 per job + one per bullet + one per institution) come the Skills heading and one paragraph holding the skill names joined by ", " |
| ExportAgreement.ExportPreviewPdf | App.tsx:497 | the PDF button captures the rendered preview, so the element is always found: the clone is attached and removed, an error is reported exactly when the capture fails, and the file is "resume.pdf" |
| ExportAgreement.ExportResumeDocx | App.tsx:500 | the Word button saves "resume.docx"; its only title paragraph is the name, and it holds thirteen fixed paragraphs plus three per job, one per bullet, one per institution and two per project |
| ExportAgreement.DocxBulletsMatchPreview | lib/exporter.ts:120 | the Word bullets are exactly the preview's main-column list items, for every template |
| ExportAgreement.DocxDatesMatchPreview | lib/exporter.ts:118 | the Word date lines open the muted lines of the Modern and Creative main columns, in the same order |
| ExportAgreement.DocxSummaryMatchesPreview | lib/exporter.ts:107 | the Word summary paragraph is the first text line of every template's main column |
| ExportAgreement.DocxTitlesMatchPreview | lib/exporter.ts:113 | the first bold runs of the Word document are the job headings of the Modern and Creative main columns, one per job |

## Left out

- Templates.Section: in Modern and Professional a section heading's Colored accent stands for its coloured bottom border; the heading text itself stays in the page's grey, and the border is not a separate node. Creative's headings do colour their text, and their rules are modelled as nodes.
- Browser and library effects:
  - the DOM clone, `document.fonts.ready`, html2canvas, jsPDF and the docx Packer;
  - the Blob and the download link;
  - `console.error` and `alert`.
- The PDF export is modelled as an event trace: clone attached, error reported, saved, clone removed. The capture's outcome is a parameter, and the PDF file is its name plus its page placements.
- PdfExport.ExportToPdf: requires a capture of positive width, and so does ExportAgreement.ExportPreviewPdf, which calls it. The source divides by the canvas width: a zero-width canvas of positive height gives an infinite image height, and the page loop of lib/exporter.ts then never ends. That non-terminating case is not modelled.
- Floating-point rounding in pagination: lengths are exact reals.
- Reducer.ApplyItemField: field names are limited to the editable fields of each record. The source would assign any property name it is given, including `id`, but every call site in the editor passes a named data field, never `id`. ReducerLaws.EditsKeepIds relies on this narrowing.
- Reducer.ApplyItemField: requires the value to have the field's declared type. The source assigns whatever it is given, and the editor only ever passes well-typed values.
- Reducer.ApplyItemField: requires the index in range. The source then reads a property of `undefined` and throws a TypeError; that failure is not modelled.
- Reducer.ApplyUpdateBullet: requires both indices in range. An out-of-range bullet index silently grows the array in the source; that case is not modelled.
- `Date.now()` for new ids is replaced by a caller-supplied stamp. Uniqueness is proved under a freshness precondition.
- Presentation: CSS classes, Tailwind sizes, icons, the heading borders of the Word document, and link schemes other than the "http" prefix rule. Hence:
  - Layout nodes carry text, role and accent colour only.
  - DocxExport.Select extracts paragraph styles, bold runs and grey runs only. Italics is modelled on runs but is not an extraction role.
- App.tsx outside the reducer and the two export buttons: the form widgets, the animated counter, file upload, tabs and loading flags.
- The AI service calls in services/geminiService.ts, and the icons in components/icons.tsx. Neither is part of this model.
