/**
  The PDF export: the preview element is cloned off-screen, captured as one
  tall image, and the image is laid onto as many letter pages as its height
  needs, each page showing the next page-height slice. Lengths are exact
  reals (inches), not floating point.
 */
module PdfExport {
  import opened Types

  /** Letter paper in inches, portrait. */
  const LetterWidth: real := 8.5
  const LetterHeight: real := 11.0

  /** The capture's resolution multiplier. */
  const CaptureScale: nat := 2

  /** The element the export captures, and the base name of the file. */
  const ExportElementId: string := "resume-preview-content"
  const ExportFileName: string := "resume"

  /** Height on the page of an image `canvasWidth` x `canvasHeight` pixels
      drawn at the full page width: the aspect ratio is kept. */
  function ScaledHeight(canvasWidth: real, canvasHeight: real, pageWidth: real): (h: real)
    requires canvasWidth > 0.0
    ensures h * canvasWidth == canvasHeight * pageWidth
    ensures canvasHeight >= 0.0 && pageWidth >= 0.0 ==> h >= 0.0
    ensures canvasHeight == canvasWidth ==> h == pageWidth
  {
    canvasHeight * pageWidth / canvasWidth
  }

  /** The capture scale does not change the height on the page: a canvas
      rendered at `k` times the resolution yields the same image height. */
  lemma ScaledHeightIgnoresResolution(canvasWidth: real, canvasHeight: real, pageWidth: real, k: real)
    requires canvasWidth > 0.0 && k > 0.0
    ensures ScaledHeight(k * canvasWidth, k * canvasHeight, pageWidth) == ScaledHeight(canvasWidth, canvasHeight, pageWidth)
  {
    var a := ScaledHeight(k * canvasWidth, k * canvasHeight, pageWidth);
    var b := ScaledHeight(canvasWidth, canvasHeight, pageWidth);
    assert a * (k * canvasWidth) == k * (canvasHeight * pageWidth);
    assert (a * canvasWidth) * k == (b * canvasWidth) * k;
  }

  /** In particular the double-resolution capture the export asks for lays
      out exactly as a capture at the element's own size would. */
  lemma CaptureScaleKeepsHeight(canvasWidth: real, canvasHeight: real, pageWidth: real)
    requires canvasWidth > 0.0
    ensures ScaledHeight(CaptureScale as real * canvasWidth, CaptureScale as real * canvasHeight, pageWidth)
         == ScaledHeight(canvasWidth, canvasHeight, pageWidth)
  {
    ScaledHeightIgnoresResolution(canvasWidth, canvasHeight, pageWidth, CaptureScale as real);
  }

  /* Order facts about products and quotients of reals. */

  lemma MulMono(a: real, b: real, p: real)
    requires p > 0.0 && a <= b
    ensures a * p <= b * p
  {
  }

  lemma MulStrict(a: real, b: real, p: real)
    requires p > 0.0 && a < b
    ensures a * p < b * p
  {
  }

  lemma DivSub(h: real, p: real)
    requires p > 0.0
    ensures (h - p) / p == h / p - 1.0
  {
    var x := (h - p) / p;
    var y := h / p - 1.0;
    assert x * p == h - p;
    assert (h / p) * p == h;
    assert y * p == h - p;
    if x < y { MulStrict(x, y, p); } else if y < x { MulStrict(y, x, p); }
  }

  /** Moving one page down: the floor drops by exactly one. */
  lemma FloorStep(h: real, p: real)
    requires p > 0.0
    ensures ((h - p) / p).Floor == (h / p).Floor - 1
  {
    DivSub(h, p);
  }

  /** The number of pages the loop emits for an image `h` high on pages `p`
      high: one page, and one more for as long as height is left over. */
  function PagesNeeded(h: real, p: real): (n: nat)
    requires p > 0.0
    ensures n >= 1
    ensures h <= n as real * p
    ensures n == 1 || (n - 1) as real * p < h
    decreases if h <= p then 0 else (h / p).Floor
  {
    if h <= p then 1
    else
      FloorStep(h, p);
      assert h / p > 1.0 by {
        assert (h / p) * p == h;
      }
      1 + PagesNeeded(h - p, p)
  }

  /** Fewer pages than a count that falls short cannot cover the image. */
  lemma ShortCountsFallShort(a: nat, b: nat, h: real, p: real)
    requires p > 0.0 && a <= b && b as real * p < h
    ensures a as real * p < h
  {
    MulMono(a as real, b as real, p);
  }

  /** The three facts in `PagesNeeded`'s contract single out its value: it
      is the least page count of at least one whose pages cover the image. */
  lemma PagesNeededUnique(h: real, p: real, m: nat)
    requires p > 0.0
    requires m >= 1 && h <= m as real * p && (m == 1 || (m - 1) as real * p < h)
    ensures m == PagesNeeded(h, p)
  {
    var n := PagesNeeded(h, p);
    if m < n {
      ShortCountsFallShort(m, n - 1, h, p);
    } else if n < m {
      ShortCountsFallShort(n, m - 1, h, p);
    }
  }

  /** The ceiling of a real number. */
  function Ceiling(x: real): (c: int)
    ensures x <= c as real < x + 1.0
  {
    -((-x).Floor)
  }

  /** The page count is max(1, ceil(h / p)). */
  lemma PagesNeededIsCeiling(h: real, p: real)
    requires p > 0.0
    ensures PagesNeeded(h, p) == if Ceiling(h / p) < 1 then 1 else Ceiling(h / p)
  {
    var q := h / p;
    var c := Ceiling(q);
    assert q * p == h;
    if 1 <= c {
      var below := (c - 1) as real;
      MulMono(q, c as real, p);
      if c != 1 {
        MulStrict(below, q, p);
        assert below * p < h;
      }
      PagesNeededUnique(h, p, c);
    } else {
      MulMono(q, 1.0, p);
    }
  }

  /** A taller image never needs fewer pages. */
  lemma PagesNeededMonotone(h1: real, h2: real, p: real)
    requires p > 0.0 && h1 <= h2
    ensures PagesNeeded(h1, p) <= PagesNeeded(h2, p)
  {
    var n1 := PagesNeeded(h1, p);
    var n2 := PagesNeeded(h2, p);
    assert h2 <= n2 as real * p;
    assert n1 == 1 || (n1 - 1) as real * p < h1;
    if n2 < n1 {
      assert (n1 - 1) as real * p < h1;
      ShortCountsFallShort(n2, n1 - 1, h1, p);
    }
  }

  /** The whole image drawn on page `page` (0-based) at `(x, y)` with the
      given size. */
  datatype Placement = Placement(page: nat, x: real, y: real, width: real, height: real)

  /** Where page `k` draws the image: at the left edge, shifted up by `k`
      page heights, at full page width. */
  function PagePlacement(k: nat, pageWidth: real, pageHeight: real, imgHeight: real): Placement
  {
    Placement(k, 0.0, -(k as real) * pageHeight, pageWidth, imgHeight)
  }

  /** One more page: the offset moves up by exactly one page height. */
  lemma NextPage(k: nat, pageWidth: real, pageHeight: real, imgHeight: real)
    requires k >= 1
    ensures PagePlacement(k, pageWidth, pageHeight, imgHeight).y
         == PagePlacement(k - 1, pageWidth, pageHeight, imgHeight).y - pageHeight
  {
  }

  /** A page taken off a positive remaining height: one page fewer is
      needed for what is left, and none when nothing is left. */
  lemma PagesNeededStep(heightLeft: real, pageHeight: real)
    requires pageHeight > 0.0 && heightLeft > 0.0
    ensures PagesNeeded(heightLeft, pageHeight)
         == 1 + (if heightLeft - pageHeight > 0.0 then PagesNeeded(heightLeft - pageHeight, pageHeight) else 0)
  {
  }

  /** The pagination loop: draw the image on the first page, then add a page
      and draw it one page height higher while image height is left over. */
  method Paginate(imgHeight: real, pageWidth: real, pageHeight: real) returns (placements: seq<Placement>)
    requires pageHeight > 0.0
    ensures |placements| == PagesNeeded(imgHeight, pageHeight)
    ensures forall k :: 0 <= k < |placements| ==> placements[k] == PagePlacement(k, pageWidth, pageHeight, imgHeight)
  {
    var heightLeft := imgHeight;
    var position := 0.0;
    placements := [Placement(0, 0.0, position, pageWidth, imgHeight)];
    heightLeft := heightLeft - pageHeight;
    while heightLeft > 0.0
      invariant |placements| >= 1
      invariant position == placements[|placements| - 1].y
      invariant forall k :: 0 <= k < |placements| ==> placements[k] == PagePlacement(k, pageWidth, pageHeight, imgHeight)
      invariant PagesNeeded(imgHeight, pageHeight)
             == |placements| + (if heightLeft > 0.0 then PagesNeeded(heightLeft, pageHeight) else 0)
      decreases if heightLeft > 0.0 then PagesNeeded(heightLeft, pageHeight) else 0
    {
      PagesNeededStep(heightLeft, pageHeight);
      NextPage(|placements|, pageWidth, pageHeight, imgHeight);
      position := position - pageHeight;
      assert position == PagePlacement(|placements|, pageWidth, pageHeight, imgHeight).y;
      placements := placements + [Placement(|placements|, 0.0, position, pageWidth, imgHeight)];
      heightLeft := heightLeft - pageHeight;
    }
  }

  /** Every page shows a distinct slice: consecutive pages are exactly one
      page height apart, so nothing is skipped or drawn twice. */
  lemma ConsecutivePagesAbut(placements: seq<Placement>, pageWidth: real, pageHeight: real, imgHeight: real, k: nat)
    requires forall j :: 0 <= j < |placements| ==> placements[j] == PagePlacement(j, pageWidth, pageHeight, imgHeight)
    requires k + 1 < |placements|
    ensures placements[k].y - placements[k + 1].y == pageHeight
  {
    assert placements[k].y == -(k as real) * pageHeight;
    assert placements[k + 1].y == -((k + 1) as real) * pageHeight;
  }

  /** What the capture of the clone yielded: nothing (the capture threw), or
      a canvas of the given pixel size. */
  datatype Capture = CaptureFailed | Captured(width: nat, height: nat)

  /** The observable steps of one export. */
  datatype Event = ErrorReported | CloneAttached | Saved(name: string) | CloneRemoved

  datatype PdfFile = PdfFile(name: string, pages: seq<Placement>)

  /** Whether the off-screen clone is still attached after `events`. */
  function CloneAttachedAfter(events: seq<Event>): bool
  {
    if events == [] then false
    else if events[|events| - 1] == CloneAttached then true
    else if events[|events| - 1] == CloneRemoved then false
    else CloneAttachedAfter(events[..|events| - 1])
  }

  /** The export of element `elementId` among the ids `present` in the
      document, with the capture's outcome supplied. */
  method ExportToPdf(present: set<string>, elementId: string, capture: Capture, fileName: string)
    returns (events: seq<Event>, file: Option<PdfFile>)
    requires capture.Captured? ==> capture.width > 0
    ensures elementId !in present ==> events == [ErrorReported] && file == None
    ensures elementId in present ==> |events| >= 2 && events[0] == CloneAttached && events[|events| - 1] == CloneRemoved
    ensures !CloneAttachedAfter(events)
    ensures file.Some? <==> elementId in present && capture.Captured?
    ensures elementId in present && capture.CaptureFailed? ==> events == [CloneAttached, ErrorReported, CloneRemoved]
    ensures file.Some? ==>
      && events == [CloneAttached, Saved(fileName + ".pdf"), CloneRemoved]
      && file.value.name == fileName + ".pdf"
      && |file.value.pages| == PagesNeeded(ScaledHeight(capture.width as real, capture.height as real, LetterWidth), LetterHeight)
      && forall k :: 0 <= k < |file.value.pages| ==>
           file.value.pages[k] == PagePlacement(k, LetterWidth, LetterHeight,
                                    ScaledHeight(capture.width as real, capture.height as real, LetterWidth))
  {
    if elementId !in present {
      events := [ErrorReported];
      file := None;
      return;
    }
    events := [CloneAttached];
    match capture {
      case CaptureFailed =>
        events := events + [ErrorReported];
        file := None;
      case Captured(w, h) =>
        var imgHeight := ScaledHeight(w as real, h as real, LetterWidth);
        var pages := Paginate(imgHeight, LetterWidth, LetterHeight);
        file := Some(PdfFile(fileName + ".pdf", pages));
        events := events + [Saved(fileName + ".pdf")];
    }
    events := events + [CloneRemoved];
  }
}
