/**
  The abstract layout a template produces: a page with a root id and a font,
  made of regions (header, sidebar, main column, foot grid), each a flat
  sequence of content nodes. Styling classes and icons are not represented;
  accents record where the primary colour is applied.
 */
module Layout {
  import opened Seqs

  /** Whether an element carries the style's primary colour. */
  datatype Accent = Plain | Colored(color: string)

  datatype Node =
    | Heading(level: nat, text: string, accent: Accent)
    | Text(text: string)
      /** De-emphasised text: the date spans. */
    | Muted(text: string)
      /** One entry of a rendered list. */
    | Item(text: string)
      /** A coloured tag, as used for skills in the ornamented layout. */
    | Chip(text: string, accent: Accent)
    | Link(href: string, text: string, accent: Accent)
      /** A horizontal ornament line. */
    | Rule(accent: Accent)
      /** A visual separator between contact details. */
    | Separator

  datatype RegionKind = Header | Sidebar | MainColumn | FootGrid

  datatype Region = Region(kind: RegionKind, background: Accent, nodes: seq<Node>)

  datatype Page = Page(id: string, font: string, regions: seq<Region>)

  /** The content roles by which node texts are extracted. */
  datatype Role = HeadingRole(level: nat) | TextRole | MutedRole | ItemRole | ChipRole | LinkRole

  predicate Plays(n: Node, role: Role)
  {
    match role
    case HeadingRole(l) => n.Heading? && n.level == l
    case TextRole => n.Text?
    case MutedRole => n.Muted?
    case ItemRole => n.Item?
    case ChipRole => n.Chip?
    case LinkRole => n.Link?
  }

  /** The text `n` contributes under `role`: its text if it plays the role. */
  function Own(n: Node, role: Role): seq<string>
  {
    if Plays(n, role) then [n.text] else []
  }

  /** The texts of the nodes of `ns` that play `role`, in order. */
  function Select(ns: seq<Node>, role: Role): seq<string>
  {
    if ns == [] then [] else Own(ns[0], role) + Select(ns[1..], role)
  }

  /** Extraction distributes over concatenation. Deliberately parallel to
      DocxExport.SelectAppend, which states the same over paragraphs. */
  lemma {:induction false} SelectAppend(a: seq<Node>, b: seq<Node>, role: Role)
    ensures Select(a + b, role) == Select(a, role) + Select(b, role)
    decreases |a|
  {
    if a == [] {
      assert a + b == b;
    } else {
      assert (a + b)[0] == a[0];
      assert (a + b)[1..] == a[1..] + b;
      SelectAppend(a[1..], b, role);
    }
  }

  lemma SelectOne(n: Node, role: Role)
    ensures Select([n], role) == Own(n, role)
  {
    assert [n][1..] == [];
  }

  lemma SelectCons(n: Node, rest: seq<Node>, role: Role)
    ensures Select([n] + rest, role) == Own(n, role) + Select(rest, role)
  {
    assert ([n] + rest)[0] == n;
    assert ([n] + rest)[1..] == rest;
  }

  /** Extraction from short literal prefixes. */
  lemma SelectTwo(a: Node, b: Node, rest: seq<Node>, role: Role)
    ensures Select([a, b] + rest, role) == Own(a, role) + Own(b, role) + Select(rest, role)
  {
    assert [a, b] + rest == [a] + ([b] + rest);
    SelectCons(a, [b] + rest, role);
    SelectCons(b, rest, role);
    AppendAssoc(Own(a, role), Own(b, role), Select(rest, role));
  }

  lemma SelectThree(a: Node, b: Node, c: Node, rest: seq<Node>, role: Role)
    ensures Select([a, b, c] + rest, role) == Own(a, role) + Own(b, role) + Own(c, role) + Select(rest, role)
  {
    assert [a, b, c] + rest == [a] + ([b, c] + rest);
    SelectCons(a, [b, c] + rest, role);
    SelectTwo(b, c, rest, role);
    AppendAssoc(Own(a, role), Own(b, role) + Own(c, role), Select(rest, role));
    AppendAssoc(Own(a, role), Own(b, role), Own(c, role));
  }

  lemma SelectFour(a: Node, b: Node, c: Node, e: Node, rest: seq<Node>, role: Role)
    ensures Select([a, b, c, e] + rest, role) == Own(a, role) + Own(b, role) + Own(c, role) + Own(e, role) + Select(rest, role)
  {
    assert [a, b, c, e] + rest == [a] + ([b, c, e] + rest);
    SelectCons(a, [b, c, e] + rest, role);
    SelectThree(b, c, e, rest, role);
    var x, y, z, w, r := Own(a, role), Own(b, role), Own(c, role), Own(e, role), Select(rest, role);
    AppendAssoc(x, y + z + w, r);
    AppendAssoc(x, y + z, w);
    AppendAssoc(x, y, z);
  }

  /** The section headings of `ns` (level-2 headings), as nodes, in order:
      their titles and their accents. */
  function SectionHeadings(ns: seq<Node>): seq<Node>
  {
    if ns == [] then []
    else (if ns[0].Heading? && ns[0].level == 2 then [ns[0]] else []) + SectionHeadings(ns[1..])
  }

  lemma {:induction false} SectionHeadingsAppend(a: seq<Node>, b: seq<Node>)
    ensures SectionHeadings(a + b) == SectionHeadings(a) + SectionHeadings(b)
    decreases |a|
  {
    if a == [] {
      assert a + b == b;
    } else {
      assert (a + b)[0] == a[0];
      assert (a + b)[1..] == a[1..] + b;
      var head := if a[0].Heading? && a[0].level == 2 then [a[0]] else [];
      assert SectionHeadings(a + b) == head + SectionHeadings(a[1..] + b);
      SectionHeadingsAppend(a[1..], b);
      AppendAssoc(head, SectionHeadings(a[1..]), SectionHeadings(b));
    }
  }

  /** Nodes without section headings contribute none. */
  lemma {:induction false} NoSectionHeadings(ns: seq<Node>)
    requires Select(ns, HeadingRole(2)) == []
    ensures SectionHeadings(ns) == []
    decreases |ns|
  {
    if ns != [] {
      NoSectionHeadings(ns[1..]);
    }
  }

  /** The link targets of `ns`, in order. */
  function Hrefs(ns: seq<Node>): seq<string>
  {
    if ns == [] then [] else (if ns[0].Link? then [ns[0].href] else []) + Hrefs(ns[1..])
  }

  lemma HrefsCons(n: Node, rest: seq<Node>)
    ensures Hrefs([n] + rest) == (if n.Link? then [n.href] else []) + Hrefs(rest)
  {
    assert ([n] + rest)[0] == n;
    assert ([n] + rest)[1..] == rest;
  }

  lemma {:induction false} HrefsAppend(a: seq<Node>, b: seq<Node>)
    ensures Hrefs(a + b) == Hrefs(a) + Hrefs(b)
    decreases |a|
  {
    if a == [] {
      assert a + b == b;
    } else {
      assert (a + b)[0] == a[0];
      assert (a + b)[1..] == a[1..] + b;
      HrefsAppend(a[1..], b);
    }
  }

  /** The nodes of all regions of kind `k`, in page order. */
  function RegionNodes(regions: seq<Region>, k: RegionKind): seq<Node>
  {
    if regions == [] then []
    else (if regions[0].kind == k then regions[0].nodes else []) + RegionNodes(regions[1..], k)
  }

  /** Rendering of a list of lines as list items, one `Item` per line. */
  function Items(lines: seq<string>): (r: seq<Node>)
    ensures |r| == |lines|
    ensures forall role :: Select(r, role) == if role == ItemRole then lines else []
    decreases |lines|
  {
    if lines == [] then []
    else
      var rest := Items(lines[1..]);
      assert forall role :: Select([Item(lines[0])] + rest, role) == Own(Item(lines[0]), role) + Select(rest, role) by {
        forall role ensures Select([Item(lines[0])] + rest, role) == Own(Item(lines[0]), role) + Select(rest, role) {
          SelectAppend([Item(lines[0])], rest, role);
          SelectOne(Item(lines[0]), role);
        }
      }
      assert lines == [lines[0]] + lines[1..];
      [Item(lines[0])] + rest
  }
}
