/**
  The template dispatcher: every template is mounted under one fixed root
  id, which is also the element the PDF exporter looks up.
 */
module Renderer {
  import opened Types
  import opened Layout
  import opened Templates

  /** The id every rendered résumé carries. */
  const PreviewRootId: string := "resume-preview-content"

  /** The page for a template variant. */
  function Render(t: TemplateId, d: ResumeData, style: TemplateStyle): (page: Page)
    ensures page.id == PreviewRootId
    ensures page.font == style.fontFamily
    ensures |page.regions| >= 2 && page.regions[0].kind in {Header, Sidebar} && page.regions[1].kind == MainColumn
  {
    match t
    case Modern => ModernTemplate(PreviewRootId, d, style)
    case Professional => ProfessionalTemplate(PreviewRootId, d, style)
    case Creative => CreativeTemplate(PreviewRootId, d, style)
  }

  /** The page for a run-time tag; a tag that names no variant falls back
      to the single-column layout. */
  function RenderTag(tag: string, d: ResumeData, style: TemplateStyle): (page: Page)
    ensures ParseTemplateTag(tag) == None ==> page == Render(Modern, d, style)
  {
    match ParseTemplateTag(tag)
    case Some(t) => Render(t, d, style)
    case None => Render(Modern, d, style)
  }

  /** A known tag renders its own variant. */
  lemma RenderTagKnown(t: TemplateId, d: ResumeData, style: TemplateStyle)
    ensures RenderTag(TemplateTag(t), d, style) == Render(t, d, style)
  {
    TemplateTagRoundTrip(t);
  }

  /** The main column of a page. */
  function MainColumnOf(page: Page): seq<Node>
  {
    RegionNodes(page.regions, MainColumn)
  }

  lemma RegionNodesOfTwo(a: Region, b: Region, k: RegionKind)
    ensures RegionNodes([a, b], k) == (if a.kind == k then a.nodes else []) + (if b.kind == k then b.nodes else [])
  {
    assert [a, b][1..] == [b];
    assert [b][1..] == [];
    assert RegionNodes([b], k) == (if b.kind == k then b.nodes else []) + RegionNodes([], k);
  }

  lemma RegionNodesOfThree(a: Region, b: Region, c: Region, k: RegionKind)
    ensures RegionNodes([a, b, c], k)
         == (if a.kind == k then a.nodes else []) + (if b.kind == k then b.nodes else [])
          + (if c.kind == k then c.nodes else [])
  {
    assert [a, b, c][1..] == [b, c];
    RegionNodesOfTwo(b, c, k);
  }

  /** The main column of each variant. */
  lemma ModernMainColumn(d: ResumeData, style: TemplateStyle)
    ensures MainColumnOf(Render(Modern, d, style)) == ModernMain(d, style.primaryColor)
  {
    var c := style.primaryColor;
    RegionNodesOfTwo(Region(Header, Plain, ModernHeader(d.personalInfo, c)),
                     Region(MainColumn, Plain, ModernMain(d, c)), MainColumn);
  }

  lemma ProfessionalMainColumn(d: ResumeData, style: TemplateStyle)
    ensures MainColumnOf(Render(Professional, d, style)) == ProfessionalMain(d, style.primaryColor)
  {
    var c := style.primaryColor;
    RegionNodesOfTwo(Region(Sidebar, Colored(c), ProfessionalSidebar(d)),
                     Region(MainColumn, Plain, ProfessionalMain(d, c)), MainColumn);
  }

  lemma CreativeMainColumn(d: ResumeData, style: TemplateStyle)
    ensures MainColumnOf(Render(Creative, d, style)) == CreativeMain(d, style.primaryColor)
  {
    var c := style.primaryColor;
    RegionNodesOfThree(Region(Header, Plain, CreativeHeader(d.personalInfo, c)),
                       Region(MainColumn, Plain, CreativeMain(d, c)),
                       Region(FootGrid, Plain, CreativeFoot(d, c)), MainColumn);
  }

  lemma MainColumnOfEach(d: ResumeData, style: TemplateStyle)
    ensures MainColumnOf(Render(Modern, d, style)) == ModernMain(d, style.primaryColor)
    ensures MainColumnOf(Render(Professional, d, style)) == ProfessionalMain(d, style.primaryColor)
    ensures MainColumnOf(Render(Creative, d, style)) == CreativeMain(d, style.primaryColor)
  {
    ModernMainColumn(d, style);
    ProfessionalMainColumn(d, style);
    CreativeMainColumn(d, style);
  }

  /** Whichever variant is chosen, the main column holds every bullet of
      every job, in order, and no other list item. */
  lemma EveryTemplateShowsAllBullets(t: TemplateId, d: ResumeData, style: TemplateStyle)
    ensures Select(MainColumnOf(Render(t, d, style)), ItemRole) == AllBullets(d.workExperience)
  {
    MainColumnOfEach(d, style);
    match t
    case Modern => ModernMainItems(d, style.primaryColor);
    case Professional => ProfessionalMainItems(d, style.primaryColor);
    case Creative => CreativeMainItems(d, style.primaryColor);
  }

  /** Whichever variant is chosen, the summary is the first plain line of
      the main column. */
  lemma EveryTemplateLeadsWithSummary(t: TemplateId, d: ResumeData, style: TemplateStyle)
    ensures var texts := Select(MainColumnOf(Render(t, d, style)), TextRole);
      |texts| > 0 && texts[0] == d.summary
  {
    MainColumnOfEach(d, style);
    match t
    case Modern => ModernMainText(d, style.primaryColor);
    case Professional => ProfessionalMainText(d, style.primaryColor);
    case Creative => CreativeMainText(d, style.primaryColor);
  }
}
