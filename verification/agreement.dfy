/**
  What the two export buttons produce, and how the exported files agree
  with the on-screen preview: the PDF button captures the element the
  renderer mounts, and the Word document carries the same bullets, dates,
  titles and summary as every template shows.
 */
module ExportAgreement {
  import opened Types
  import opened Layout
  import opened Renderer
  import PdfExport
  import DocxExport

  /** The two saved file names, spelled out. */
  lemma SavedNames()
    ensures PdfExport.ExportFileName + ".pdf" == "resume.pdf"
    ensures "resume" + ".docx" == "resume.docx"
  {
  }

  /** The PDF button: the rendered page is the only element in the
      document, and it is exported under the fixed base name. */
  method ExportPreviewPdf(t: TemplateId, d: ResumeData, style: TemplateStyle, capture: PdfExport.Capture)
    returns (events: seq<PdfExport.Event>, file: Option<PdfExport.PdfFile>)
    requires capture.Captured? ==> capture.width > 0
    ensures |events| >= 2 && events[0] == PdfExport.CloneAttached && events[|events| - 1] == PdfExport.CloneRemoved
    ensures !PdfExport.CloneAttachedAfter(events)
    ensures file.Some? <==> capture.Captured?
    ensures PdfExport.ErrorReported in events <==> capture.CaptureFailed?
    ensures file.Some? ==> file.value.name == "resume.pdf"
  {
    SavedNames();
    var page := Render(t, d, style);
    events, file := PdfExport.ExportToPdf({page.id}, PdfExport.ExportElementId, capture, PdfExport.ExportFileName);
  }

  /** The Word button: the document built from the current data, saved as
      "resume.docx", with the name as its only title. */
  function ExportResumeDocx(d: ResumeData): (f: DocxExport.DocxFile)
    ensures f.name == "resume.docx"
    ensures DocxExport.Select(f.paragraphs, DocxExport.StyleRole(DocxExport.Heading1)) == [d.personalInfo.name]
    ensures |f.paragraphs| == 13 + 3 * |d.workExperience| + BulletCount(d.workExperience) + |d.education| + 2 * |d.projects|
  {
    SavedNames();
    var f := DocxExport.ExportToDocx(d, "resume");
    DocxExport.DocumentTitle(d);
    DocxExport.DocumentLength(d);
    f
  }

  /** The bulleted paragraphs of the Word document are exactly the list
      items of the preview's main column, whichever template is chosen. */
  lemma DocxBulletsMatchPreview(t: TemplateId, d: ResumeData, style: TemplateStyle)
    ensures Select(MainColumnOf(Render(t, d, style)), ItemRole)
         == DocxExport.Select(DocxExport.Document(d), DocxExport.StyleRole(DocxExport.Bullet))
  {
    EveryTemplateShowsAllBullets(t, d, style);
    DocxExport.DocumentBullets(d);
  }

  /** The grey date lines of the Word document are the job dates the
      single-column and the creative previews print, in the same order:
      they open the muted lines of the main column. */
  lemma DocxDatesMatchPreview(t: TemplateId, d: ResumeData, style: TemplateStyle)
    requires t != Professional
    ensures var dates := DocxExport.Select(DocxExport.Document(d), DocxExport.ColoredRole);
      var muted := Select(MainColumnOf(Render(t, d, style)), MutedRole);
      |dates| <= |muted| && muted[..|dates|] == dates
  {
    var dates := DateRanges(d.workExperience);
    var modern := dates + Templates.StudyRanges(d.education, " - ");
    assert modern[..|dates|] == dates;
    assert dates[..|dates|] == dates;
    DocxExport.DocumentDates(d);
    if t == Modern {
      ModernMainColumn(d, style);
      Templates.ModernMainMuted(d, style.primaryColor);
    } else {
      CreativeMainColumn(d, style);
      Templates.CreativeMainMuted(d, style.primaryColor);
    }
  }

  /** The summary paragraph of the Word document carries the text every
      template shows first in its main column. */
  lemma DocxSummaryMatchesPreview(t: TemplateId, d: ResumeData, style: TemplateStyle)
    ensures var texts := Select(MainColumnOf(Render(t, d, style)), TextRole);
      |texts| > 0 && DocxExport.ParagraphText(DocxExport.Document(d)[4]) == texts[0]
  {
    EveryTemplateLeadsWithSummary(t, d, style);
    DocxExport.DocumentOpening(d);
    assert DocxExport.RunsText([DocxExport.PlainRun(d.summary)]) == d.summary + DocxExport.RunsText([]);
  }

  /** The bold lines of the Word document open with one title per job,
      and so do the job headings of the single-column and the creative
      previews: the two agree entry by entry. */
  lemma DocxTitlesMatchPreview(t: TemplateId, d: ResumeData, style: TemplateStyle)
    requires t != Professional
    ensures var n := |d.workExperience|;
      var bold := DocxExport.Select(DocxExport.Document(d), DocxExport.BoldRole);
      var headings := Select(MainColumnOf(Render(t, d, style)), HeadingRole(3));
      n <= |bold| && n <= |headings| && bold[..n] == headings[..n]
  {
    var titles := JobTitles(d.workExperience);
    var degrees := DegreeLines(d.education);
    var bold := titles + degrees + ProjectNames(d.projects);
    var modern := titles + Institutions(d.education);
    assert bold[..|titles|] == titles;
    assert modern[..|titles|] == titles;
    assert titles[..|titles|] == titles;
    ProjectionsPointwise(d.workExperience, []);
    DocxExport.DocumentBold(d);
    assert DocxExport.Select(DocxExport.Document(d), DocxExport.BoldRole) == bold;
    MainColumnOfEach(d, style);
    if t == Modern {
      Templates.ModernMainHeadings(d, style.primaryColor);
    } else {
      Templates.CreativeMainHeadings(d, style.primaryColor);
    }
  }
}
