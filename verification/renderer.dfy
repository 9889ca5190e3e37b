/**
 * The per-section part of `ReportRenderer.create_pdf`: which template a
 * section's layout selects, how its texts and chart are converted, and the
 * block of markup each template builds.
 *
 * The Markdown converter and the chart drawer are foreign libraries; they
 * are the function-valued fields of `Backends`, so every property here holds
 * whatever they compute.
 */
module Renderer {
  import opened Wrappers
  import opened Markup

  /** One bar of a chart: a key of the chart's `data` mapping and its value. */
  datatype Bar = Bar(key: string, value: real)

  /** One named series of a multi-series chart. */
  datatype Series = Series(name: string, labels: seq<string>, values: seq<real>)

  /** A chart's `data`: a mapping from labels to values, or a list of series. */
  datatype ChartData = Mapping(bars: seq<Bar>) | SeriesList(series: seq<Series>)

  /** A chart record; each field is `None` when its key is absent or null.
      `nullOrOtherKeys` counts the keys it has besides these five, plus
      those of the five whose value is null: every one of them makes the
      record non-empty. */
  datatype Chart = Chart(
    title: Option<string>,
    data: Option<ChartData>,
    kind: Option<string>,
    xLabel: Option<string>,
    yLabel: Option<string>,
    nullOrOtherKeys: nat)

  /** A section record; each field is `None` when its key is absent. */
  datatype Section = Section(
    layout: Option<string>,
    title: Option<string>,
    mainText: Option<string>,
    sideText: Option<string>,
    chart: Option<Chart>)

  /** The foreign converters: Markdown with the tables and footnotes
      extensions, plain Markdown, and the SVG bar-chart drawer. */
  datatype Backends = Backends(
    markdownWithTables: string -> string,
    markdown: string -> string,
    drawSvg: (seq<Bar>, Option<string>) -> string)

  /** The four templates of the layout dispatch. */
  datatype Template = Split | Sidebar | Hero | Standard

  /** The template a section's `layout` value selects; an absent layout reads as "standard". */
  function TemplateOf(layout: Option<string>): (t: Template)
    ensures t == Split <==> layout == Some("split")
    ensures t == Sidebar <==> layout == Some("sidebar")
    ensures t == Hero <==> layout == Some("hero")
    ensures t == Standard <==> layout !in {Some("split"), Some("sidebar"), Some("hero")}
  {
    var name := layout.GetOr("standard");
    if name == "split" then Split
    else if name == "sidebar" then Sidebar
    else if name == "hero" then Hero
    else Standard
  }

  /** The suffix of the `layout-` class of a template's `<section>`. */
  function ClassName(t: Template): string {
    match t
    case Split => "split"
    case Sidebar => "sidebar"
    case Hero => "hero"
    case Standard => "standard"
  }

  /** Distinct templates produce distinct section classes, so the class in
      the markup identifies the template that produced the block. */
  lemma ClassNameInjective(t: Template, u: Template)
    ensures ClassName(t) == ClassName(u) <==> t == u
  {
  }

  /** Python truthiness of chart data: present and not an empty mapping or list. */
  predicate HasData(data: Option<ChartData>) {
    data.Some? &&
    match data.value
    case Mapping(bars) => bars != []
    case SeriesList(series) => series != []
  }

  /** Data on which `_make_svg_chart` raises: a non-empty list of series has
      no `keys()`. */
  predicate DataRaises(data: Option<ChartData>) {
    HasData(data) && data.value.SeriesList?
  }

  /** The exception `_make_svg_chart` raises. */
  datatype ChartError = DataHasNoKeys

  /** `_make_svg_chart`: nothing is drawn for missing or empty data, a
      non-empty mapping is drawn, and a non-empty list of series raises. */
  function SvgChart(data: Option<ChartData>, title: Option<string>, draw: (seq<Bar>, Option<string>) -> string): (r: Result<string, ChartError>)
    ensures !HasData(data) ==> r == Ok("")
    ensures DataRaises(data) ==> r == Err(DataHasNoKeys)
    ensures HasData(data) && data.value.Mapping? ==> r == Ok(draw(data.value.bars, title))
  {
    if !HasData(data) then Ok("")
    else match data.value
      case Mapping(bars) => Ok(draw(bars, title))
      case SeriesList(_) => Err(DataHasNoKeys)
  }

  /** Python truthiness of the section's `chart` value: present and not an empty record. */
  predicate ChartPresent(chart: Option<Chart>) {
    chart.Some? &&
    var c := chart.value;
    c.title.Some? || c.data.Some? || c.kind.Some? || c.xLabel.Some? || c.yLabel.Some? || c.nullOrOtherKeys > 0
  }

  /** How an f-string shows the chart title: a missing title prints as "None". */
  function ShowTitle(title: Option<string>): string {
    title.GetOr("None")
  }

  const FigureOpen: string := "<div class=\"chart-wrapper\">"
  const CaptionOpen: string := "<div class=\"chart-caption\">"

  /** The figure caption: the fixed prefix followed by the chart's title. */
  function Caption(title: Option<string>): (cap: string)
    ensures |cap| >= 8 && cap[..8] == "FIGURE: " && cap[8..] == ShowTitle(title)
  {
    "FIGURE: " + ShowTitle(title)
  }

  /** A section's chart makes the renderer raise: it is present and its
      data is a non-empty list of series. */
  predicate ChartRaises(chart: Option<Chart>) {
    ChartPresent(chart) && DataRaises(chart.value.data)
  }

  /** The chart block of a section: empty without a chart, otherwise a
      wrapper holding the drawn SVG followed by the caption; an error when
      drawing raises. */
  function ChartFigure(chart: Option<Chart>, draw: (seq<Bar>, Option<string>) -> string): (r: Result<string, ChartError>)
    ensures r.Err? <==> ChartRaises(chart)
    ensures r == Ok("") <==> !ChartPresent(chart)
    ensures ChartPresent(chart) && !ChartRaises(chart) ==>
      var c := chart.value;
      r == Ok(FigureOpen + SvgChart(c.data, c.title, draw).value + CaptionOpen + Caption(c.title) + "</div></div>")
  {
    if !ChartPresent(chart) then Ok("")
    else
      var c := chart.value;
      match SvgChart(c.data, c.title, draw)
      case Err(e) => Err(e)
      case Ok(svgRaw) => Ok(FigureOpen + svgRaw + CaptionOpen + Caption(c.title) + "</div></div>")
  }

  /** A chart without data still yields its wrapper and caption, around no image. */
  lemma FigureWithoutData(chart: Option<Chart>, draw: (seq<Bar>, Option<string>) -> string)
    requires ChartPresent(chart) && !HasData(chart.value.data)
    ensures ChartFigure(chart, draw) == Ok(FigureOpen + CaptionOpen + Caption(chart.value.title) + "</div></div>")
  {
    assert SvgChart(chart.value.data, chart.value.title, draw) == Ok("");
    assert FigureOpen + "" == FigureOpen;
  }

  /** A section renders without raising: its chart, if any, is not a list of series. */
  predicate Renders(s: Section) {
    !ChartRaises(s.chart)
  }

  /** The chart figure of a section that renders. */
  function FigureHtml(s: Section, be: Backends): string
    requires Renders(s)
  {
    ChartFigure(s.chart, be.drawSvg).value
  }

  /** The converted main text; an absent main text is converted as "". */
  function MainHtml(s: Section, be: Backends): (h: string)
    ensures s.mainText.None? ==> h == be.markdownWithTables("")
    ensures s.mainText.Some? ==> h == be.markdownWithTables(s.mainText.value)
  {
    be.markdownWithTables(s.mainText.GetOr(""))
  }

  /** The converted side text; an absent side text is converted as "". */
  function SideHtml(s: Section, be: Backends): (h: string)
    ensures s.sideText.None? ==> h == be.markdown("")
    ensures s.sideText.Some? ==> h == be.markdown(s.sideText.value)
  {
    be.markdown(s.sideText.GetOr(""))
  }

  /** The heading of a split block: the section title, "Overview" when absent. */
  function SplitTitle(s: Section): (t: string)
    ensures s.title.None? ==> t == "Overview"
    ensures s.title.Some? ==> t == s.title.value
  {
    s.title.GetOr("Overview")
  }

  // Template building blocks. Each template line is a newline and an
  // indentation followed by one piece.

  function Line(indent: nat, p: Piece): seq<Piece> {
    [Literal(Indent(indent)), p]
  }

  function ColumnDiv(cls: string, items: seq<Piece>): seq<Piece> {
    [Literal(Indent(20)), ColumnOpen(cls)] + items + [Literal(Indent(20)), ColumnClose]
  }

  function SectionEl(cls: string, inner: seq<Piece>): seq<Piece> {
    [Literal(Indent(16)), SectionOpen(cls)] + inner + [Literal(Indent(16)), SectionClose, Literal(Indent(16))]
  }

  const SideStyleOpen: string := "<div style=\"font-size:1.1em; color:#56696d;\">"

  function SplitLeft(title: string, main: string): seq<Piece> {
    Line(24, Heading(title)) + Line(24, Divider) + Line(24, MainBody(main))
  }

  function SplitRight(fig: string, side: string): seq<Piece> {
    Line(24, Figure(fig)) + [Literal(Indent(24) + SideStyleOpen), SideBody(side), Literal("</div>")]
  }

  function SidebarCol(side: string): seq<Piece> {
    Line(24, Label("KEY INSIGHTS")) + Line(24, Divider) + Line(24, SideBody(side))
  }

  function MainCol(main: string, fig: string): seq<Piece> {
    Line(24, MainBody(main)) + Line(24, Figure(fig))
  }

  function SplitPieces(title: string, main: string, fig: string, side: string): seq<Piece> {
    SectionEl("split", ColumnDiv("split-left", SplitLeft(title, main))
                       + ColumnDiv("split-right", SplitRight(fig, side)))
  }

  function SidebarPieces(main: string, fig: string, side: string): seq<Piece> {
    SectionEl("sidebar", ColumnDiv("sidebar-col", SidebarCol(side))
                         + ColumnDiv("main-col", MainCol(main, fig)))
  }

  function HeroPieces(main: string, fig: string): seq<Piece> {
    SectionEl("hero", ColumnDiv("hero-container", MainCol(main, fig)))
  }

  function StandardPieces(main: string, fig: string): seq<Piece> {
    SectionEl("standard", Line(20, Figure(fig)) + Line(20, MainBody(main)))
  }

  /** The block one section contributes, as pieces: the template its layout
      selects, filled with its converted texts and chart figure. */
  function BlockPieces(s: Section, be: Backends): seq<Piece>
    requires Renders(s)
  {
    var main := MainHtml(s, be);
    var side := SideHtml(s, be);
    var fig := FigureHtml(s, be);
    match TemplateOf(s.layout)
    case Split => SplitPieces(SplitTitle(s), main, fig, side)
    case Sidebar => SidebarPieces(main, fig, side)
    case Hero => HeroPieces(main, fig)
    case Standard => StandardPieces(main, fig)
  }

  /** The markup one section appends to the document body. */
  function BlockHtml(s: Section, be: Backends): string
    requires Renders(s)
  {
    Text(BlockPieces(s, be))
  }

  // Structure of the building blocks.

  lemma LineStructure(indent: nat, p: Piece)
    ensures Contents(Line(indent, p)) == if IsContent(p) then [p] else []
    ensures Openings(Line(indent, p)) == if p.SectionOpen? then [p.layoutClass] else []
  {
    var l := Line(indent, p);
    assert l[1..] == [p] && [p][1..] == [];
    assert Contents([p]) == (if IsContent(p) then [p] else []);
    assert Contents(l) == Contents([p]);
    assert Openings([p]) == (if p.SectionOpen? then [p.layoutClass] else []);
    assert Openings(l) == Openings([p]);
  }

  lemma LiteralsStructure(ls: seq<Piece>)
    requires forall k :: 0 <= k < |ls| ==> ls[k].Literal? || ls[k].SectionClose? || ls[k].ColumnClose?
    ensures Contents(ls) == [] && Openings(ls) == []
  {
    if ls != [] {
      LiteralsStructure(ls[1..]);
    }
  }

  lemma ColumnDivStructure(cls: string, items: seq<Piece>)
    ensures Contents(ColumnDiv(cls, items)) == Contents(items)
    ensures Openings(ColumnDiv(cls, items)) == Openings(items)
  {
    var front, back := [Literal(Indent(20)), ColumnOpen(cls)], [Literal(Indent(20)), ColumnClose];
    ContentsAppend(front + items, back);
    ContentsAppend(front, items);
    OpeningsAppend(front + items, back);
    OpeningsAppend(front, items);
    assert front[1..] == [ColumnOpen(cls)] && [ColumnOpen(cls)][1..] == [];
    LiteralsStructure(back);
  }

  lemma SectionElStructure(cls: string, inner: seq<Piece>)
    ensures Contents(SectionEl(cls, inner)) == Contents(inner)
    ensures Openings(SectionEl(cls, inner)) == [cls] + Openings(inner)
  {
    var front := [Literal(Indent(16)), SectionOpen(cls)];
    var back := [Literal(Indent(16)), SectionClose, Literal(Indent(16))];
    ContentsAppend(front + inner, back);
    ContentsAppend(front, inner);
    OpeningsAppend(front + inner, back);
    OpeningsAppend(front, inner);
    assert front[1..] == [SectionOpen(cls)] && [SectionOpen(cls)][1..] == [];
    LiteralsStructure(back);
  }

  /** A column's items followed by the whitespace before its closing tag. */
  lemma ColumnItems(items: seq<Piece>)
    ensures Contents(items + [Literal(Indent(20))]) == Contents(items)
  {
    ContentsAppend(items, [Literal(Indent(20))]);
    LiteralsStructure([Literal(Indent(20))]);
  }

  /** In a section of two columns, each column holds exactly its own items' content. */
  lemma TwoColumns(sc: string, c1: string, i1: seq<Piece>, c2: string, i2: seq<Piece>)
    requires c1 != c2 && ColumnClose !in i1 && ColumnClose !in i2 && ColumnOpen(c2) !in i1
    ensures Column(SectionEl(sc, ColumnDiv(c1, i1) + ColumnDiv(c2, i2)), c1) == Contents(i1)
    ensures Column(SectionEl(sc, ColumnDiv(c1, i1) + ColumnDiv(c2, i2)), c2) == Contents(i2)
  {
    FirstColumn(sc, c1, i1, ColumnDiv(c2, i2));
    SecondColumn(sc, c1, i1, c2, i2);
  }

  lemma FirstColumn(sc: string, c1: string, i1: seq<Piece>, rest: seq<Piece>)
    requires ColumnClose !in i1
    ensures Column(SectionEl(sc, ColumnDiv(c1, i1) + rest), c1) == Contents(i1)
  {
    var ws := Literal(Indent(20));
    var tail := [Literal(Indent(16)), SectionClose, Literal(Indent(16))];
    var before := [Literal(Indent(16)), SectionOpen(sc), ws];
    var after := rest + tail;
    assert SectionEl(sc, ColumnDiv(c1, i1) + rest) == before + [ColumnOpen(c1)] + (i1 + [ws]) + [ColumnClose] + after;
    ColumnAt(before, i1 + [ws], after, c1);
    ColumnItems(i1);
  }

  lemma SecondColumn(sc: string, c1: string, i1: seq<Piece>, c2: string, i2: seq<Piece>)
    requires c1 != c2 && ColumnClose !in i2 && ColumnOpen(c2) !in i1
    ensures Column(SectionEl(sc, ColumnDiv(c1, i1) + ColumnDiv(c2, i2)), c2) == Contents(i2)
  {
    var first := ColumnDiv(c1, i1);
    assert ColumnOpen(c2) !in first by {
      assert first == [Literal(Indent(20)), ColumnOpen(c1)] + i1 + [Literal(Indent(20)), ColumnClose];
    }
    LastColumnShape(sc, first, c2, i2);
    ColumnAt([Literal(Indent(16)), SectionOpen(sc)] + first + [Literal(Indent(20))], i2 + [Literal(Indent(20))],
      [Literal(Indent(16)), SectionClose, Literal(Indent(16))], c2);
    ColumnItems(i2);
  }

  /** A section whose last column follows `first`, regrouped around that column's open and close. */
  lemma LastColumnShape(sc: string, first: seq<Piece>, c: string, items: seq<Piece>)
    ensures SectionEl(sc, first + ColumnDiv(c, items))
      == ([Literal(Indent(16)), SectionOpen(sc)] + first + [Literal(Indent(20))]) + [ColumnOpen(c)]
         + (items + [Literal(Indent(20))]) + [ColumnClose] + [Literal(Indent(16)), SectionClose, Literal(Indent(16))]
  {
  }

  /** In a section of one column, the column holds exactly its items' content. */
  lemma OneColumn(sc: string, c: string, items: seq<Piece>)
    requires ColumnClose !in items
    ensures Column(SectionEl(sc, ColumnDiv(c, items)), c) == Contents(items)
  {
    var b := SectionEl(sc, ColumnDiv(c, items));
    var before := [Literal(Indent(16)), SectionOpen(sc), Literal(Indent(20))];
    var tail := [Literal(Indent(16)), SectionClose, Literal(Indent(16))];
    assert b == before + [ColumnOpen(c)] + (items + [Literal(Indent(20))]) + [ColumnClose] + tail;
    ColumnAt(before, items + [Literal(Indent(20))], tail, c);
    ColumnItems(items);
  }

  lemma ThreeLines(a: seq<Piece>, b: seq<Piece>, c: seq<Piece>)
    ensures Contents(a + b + c) == Contents(a) + Contents(b) + Contents(c)
    ensures Openings(a + b + c) == Openings(a) + Openings(b) + Openings(c)
  {
    ContentsAppend(a + b, c);
    ContentsAppend(a, b);
    OpeningsAppend(a + b, c);
    OpeningsAppend(a, b);
  }

  lemma TwoColumnStructure(sc: string, c1: string, i1: seq<Piece>, c2: string, i2: seq<Piece>)
    ensures Contents(SectionEl(sc, ColumnDiv(c1, i1) + ColumnDiv(c2, i2))) == Contents(i1) + Contents(i2)
    ensures Openings(SectionEl(sc, ColumnDiv(c1, i1) + ColumnDiv(c2, i2))) == [sc] + Openings(i1) + Openings(i2)
  {
    ColumnDivStructure(c1, i1);
    ColumnDivStructure(c2, i2);
    ContentsAppend(ColumnDiv(c1, i1), ColumnDiv(c2, i2));
    OpeningsAppend(ColumnDiv(c1, i1), ColumnDiv(c2, i2));
    SectionElStructure(sc, ColumnDiv(c1, i1) + ColumnDiv(c2, i2));
  }

  // What each template puts in its block, and where.

  lemma SplitLeftItems(title: string, main: string)
    ensures Contents(SplitLeft(title, main)) == [Heading(title), Divider, MainBody(main)]
    ensures Openings(SplitLeft(title, main)) == []
  {
    LineStructure(24, Heading(title));
    LineStructure(24, Divider);
    LineStructure(24, MainBody(main));
    ThreeLines(Line(24, Heading(title)), Line(24, Divider), Line(24, MainBody(main)));
  }

  lemma SplitRightItems(fig: string, side: string)
    ensures Contents(SplitRight(fig, side)) == [Figure(fig), SideBody(side)]
    ensures Openings(SplitRight(fig, side)) == []
  {
    var open, close := Literal(Indent(24) + SideStyleOpen), Literal("</div>");
    assert SplitRight(fig, side) == Line(24, Figure(fig)) + [open] + [SideBody(side)] + [close];
    LineStructure(24, Figure(fig));
    LiteralsStructure([open]);
    LiteralsStructure([close]);
    LineStructure(0, SideBody(side));
    assert [SideBody(side)] == Line(0, SideBody(side))[1..];
    assert Contents([SideBody(side)]) == [SideBody(side)] && Openings([SideBody(side)]) == [];
    ThreeLines(Line(24, Figure(fig)), [open], [SideBody(side)]);
    ContentsAppend(Line(24, Figure(fig)) + [open] + [SideBody(side)], [close]);
    OpeningsAppend(Line(24, Figure(fig)) + [open] + [SideBody(side)], [close]);
  }

  lemma SidebarColItems(side: string)
    ensures Contents(SidebarCol(side)) == [Label("KEY INSIGHTS"), Divider, SideBody(side)]
    ensures Openings(SidebarCol(side)) == []
  {
    LineStructure(24, Label("KEY INSIGHTS"));
    LineStructure(24, Divider);
    LineStructure(24, SideBody(side));
    ThreeLines(Line(24, Label("KEY INSIGHTS")), Line(24, Divider), Line(24, SideBody(side)));
  }

  lemma MainColItems(main: string, fig: string)
    ensures Contents(MainCol(main, fig)) == [MainBody(main), Figure(fig)]
    ensures Openings(MainCol(main, fig)) == []
  {
    LineStructure(24, MainBody(main));
    LineStructure(24, Figure(fig));
    ContentsAppend(Line(24, MainBody(main)), Line(24, Figure(fig)));
    OpeningsAppend(Line(24, MainBody(main)), Line(24, Figure(fig)));
  }

  lemma SplitLayout(title: string, main: string, fig: string, side: string)
    ensures var b := SplitPieces(title, main, fig, side);
      && Openings(b) == ["split"]
      && Contents(b) == [Heading(title), Divider, MainBody(main), Figure(fig), SideBody(side)]
      && Column(b, "split-left") == [Heading(title), Divider, MainBody(main)]
      && Column(b, "split-right") == [Figure(fig), SideBody(side)]
  {
    var left, right := SplitLeft(title, main), SplitRight(fig, side);
    assert left == [Literal(Indent(24)), Heading(title), Literal(Indent(24)), Divider, Literal(Indent(24)), MainBody(main)];
    assert right == [Literal(Indent(24)), Figure(fig), Literal(Indent(24) + SideStyleOpen), SideBody(side), Literal("</div>")];
    assert ColumnClose !in left && ColumnClose !in right && ColumnOpen("split-right") !in left;
    SplitLeftItems(title, main);
    SplitRightItems(fig, side);
    TwoColumnStructure("split", "split-left", left, "split-right", right);
    TwoColumns("split", "split-left", left, "split-right", right);
  }

  lemma SidebarLayout(main: string, fig: string, side: string)
    ensures var b := SidebarPieces(main, fig, side);
      && Openings(b) == ["sidebar"]
      && Contents(b) == [Label("KEY INSIGHTS"), Divider, SideBody(side), MainBody(main), Figure(fig)]
      && Column(b, "sidebar-col") == [Label("KEY INSIGHTS"), Divider, SideBody(side)]
      && Column(b, "main-col") == [MainBody(main), Figure(fig)]
  {
    var left, right := SidebarCol(side), MainCol(main, fig);
    assert left == [Literal(Indent(24)), Label("KEY INSIGHTS"), Literal(Indent(24)), Divider, Literal(Indent(24)), SideBody(side)];
    assert right == [Literal(Indent(24)), MainBody(main), Literal(Indent(24)), Figure(fig)];
    assert ColumnClose !in left && ColumnClose !in right && ColumnOpen("main-col") !in left;
    SidebarColItems(side);
    MainColItems(main, fig);
    TwoColumnStructure("sidebar", "sidebar-col", left, "main-col", right);
    TwoColumns("sidebar", "sidebar-col", left, "main-col", right);
  }

  lemma HeroLayout(main: string, fig: string)
    ensures var b := HeroPieces(main, fig);
      && Openings(b) == ["hero"]
      && Contents(b) == [MainBody(main), Figure(fig)]
      && Column(b, "hero-container") == [MainBody(main), Figure(fig)]
      && forall p :: p in b ==> !p.Heading? && !p.SideBody? && !p.Label? && !p.Divider?
  {
    var items := MainCol(main, fig);
    assert items == [Literal(Indent(24)), MainBody(main), Literal(Indent(24)), Figure(fig)];
    assert ColumnClose !in items;
    MainColItems(main, fig);
    ColumnDivStructure("hero-container", MainCol(main, fig));
    SectionElStructure("hero", ColumnDiv("hero-container", MainCol(main, fig)));
    OneColumn("hero", "hero-container", MainCol(main, fig));
    var b := HeroPieces(main, fig);
    forall p | p in b ensures !p.Heading? && !p.SideBody? && !p.Label? && !p.Divider? {
      if IsContent(p) { ContentsKeeps(b, p); }
    }
  }

  lemma StandardLayout(main: string, fig: string)
    ensures var b := StandardPieces(main, fig);
      && Openings(b) == ["standard"]
      && Contents(b) == [Figure(fig), MainBody(main)]
      && forall p :: p in b ==> !p.Heading? && !p.SideBody? && !p.Label? && !p.Divider?
  {
    LineStructure(20, Figure(fig));
    LineStructure(20, MainBody(main));
    ContentsAppend(Line(20, Figure(fig)), Line(20, MainBody(main)));
    OpeningsAppend(Line(20, Figure(fig)), Line(20, MainBody(main)));
    SectionElStructure("standard", Line(20, Figure(fig)) + Line(20, MainBody(main)));
    var b := StandardPieces(main, fig);
    forall p | p in b ensures !p.Heading? && !p.SideBody? && !p.Label? && !p.Divider? {
      if IsContent(p) { ContentsKeeps(b, p); }
    }
  }

  /** A split block: the left column holds the title (default "Overview"),
      the divider and the main text; the right column the chart, then the
      side text. */
  lemma SplitBlock(s: Section, be: Backends)
    requires Renders(s) && TemplateOf(s.layout) == Split
    ensures var b := BlockPieces(s, be);
      var main, side, fig := MainHtml(s, be), SideHtml(s, be), FigureHtml(s, be);
      && Openings(b) == ["split"]
      && Contents(b) == [Heading(SplitTitle(s)), Divider, MainBody(main), Figure(fig), SideBody(side)]
      && Column(b, "split-left") == [Heading(SplitTitle(s)), Divider, MainBody(main)]
      && Column(b, "split-right") == [Figure(fig), SideBody(side)]
  {
    SplitLayout(SplitTitle(s), MainHtml(s, be), FigureHtml(s, be), SideHtml(s, be));
  }

  /** A sidebar block: the "KEY INSIGHTS" header, the divider and the side
      text in the sidebar column, before the main text and the chart. */
  lemma SidebarBlock(s: Section, be: Backends)
    requires Renders(s) && TemplateOf(s.layout) == Sidebar
    ensures var b := BlockPieces(s, be);
      var main, side, fig := MainHtml(s, be), SideHtml(s, be), FigureHtml(s, be);
      && Openings(b) == ["sidebar"]
      && Contents(b) == [Label("KEY INSIGHTS"), Divider, SideBody(side), MainBody(main), Figure(fig)]
      && Column(b, "sidebar-col") == [Label("KEY INSIGHTS"), Divider, SideBody(side)]
      && Column(b, "main-col") == [MainBody(main), Figure(fig)]
  {
    SidebarLayout(MainHtml(s, be), FigureHtml(s, be), SideHtml(s, be));
  }

  /** A hero block: one container holding the main text, then the chart; no
      title, side text, header or divider. */
  lemma HeroBlock(s: Section, be: Backends)
    requires Renders(s) && TemplateOf(s.layout) == Hero
    ensures var b := BlockPieces(s, be);
      var main, fig := MainHtml(s, be), FigureHtml(s, be);
      && Openings(b) == ["hero"]
      && Contents(b) == [MainBody(main), Figure(fig)]
      && Column(b, "hero-container") == [MainBody(main), Figure(fig)]
      && forall p :: p in b ==> !p.Heading? && !p.SideBody? && !p.Label? && !p.Divider?
  {
    HeroLayout(MainHtml(s, be), FigureHtml(s, be));
  }

  /** A standard block: the chart, then the main text, directly in the
      section; no title, side text, header or divider. */
  lemma StandardBlock(s: Section, be: Backends)
    requires Renders(s) && TemplateOf(s.layout) == Standard
    ensures var b := BlockPieces(s, be);
      var main, fig := MainHtml(s, be), FigureHtml(s, be);
      && Openings(b) == ["standard"]
      && Contents(b) == [Figure(fig), MainBody(main)]
      && forall p :: p in b ==> !p.Heading? && !p.SideBody? && !p.Label? && !p.Divider?
  {
    StandardLayout(MainHtml(s, be), FigureHtml(s, be));
  }

  /** Every block has exactly one template-opened section, whose class names its template. */
  lemma BlockOpening(s: Section, be: Backends)
    requires Renders(s)
    ensures Openings(BlockPieces(s, be)) == [ClassName(TemplateOf(s.layout))]
  {
    match TemplateOf(s.layout)
    case Split => SplitBlock(s, be);
    case Sidebar => SidebarBlock(s, be);
    case Hero => HeroBlock(s, be);
    case Standard => StandardBlock(s, be);
  }

  /** Layouts without a template of their own, such as "chapter", "box",
      "annex", "references" or "front_matter", render as standard blocks. */
  lemma OtherLayoutsRenderStandard(s: Section, be: Backends)
    requires Renders(s)
    requires s.layout.None? || s.layout.value !in {"split", "sidebar", "hero"}
    ensures Openings(BlockPieces(s, be)) == ["standard"]
    ensures Contents(BlockPieces(s, be)) == [Figure(FigureHtml(s, be)), MainBody(MainHtml(s, be))]
  {
    StandardBlock(s, be);
  }

  /** The markup frame every template shares: the indented opening tag, the
      inner markup, then the indented closing tag and a trailing indentation. */
  lemma SectionElText(cls: string, inner: seq<Piece>)
    ensures Text(SectionEl(cls, inner))
      == Text([Literal(Indent(16)), SectionOpen(cls)]) + Text(inner) + Text([Literal(Indent(16)), SectionClose, Literal(Indent(16))])
  {
    var front := [Literal(Indent(16)), SectionOpen(cls)];
    var back := [Literal(Indent(16)), SectionClose, Literal(Indent(16))];
    TextAppend(front + inner, back);
    TextAppend(front, inner);
  }

  lemma TextOne(p: Piece)
    ensures Text([p]) == PieceText(p)
  {
    assert [p][1..] == [];
  }

  lemma TextPair(p: Piece, q: Piece)
    ensures Text([p, q]) == PieceText(p) + PieceText(q)
  {
    assert [p, q][1..] == [q];
    TextOne(q);
  }


  /** The indented opening tag of a block's `<section>`. */
  function OpenTag(cls: string): string {
    Indent(16) + "<section class=\"layout-" + cls + "\">"
  }

  /** The indented closing tag of a block's `<section>` and the indentation after it. */
  const CloseTag: string := Indent(16) + "</section>" + Indent(16)

  lemma FrameTexts(cls: string)
    ensures Text([Literal(Indent(16)), SectionOpen(cls)]) == OpenTag(cls)
    ensures Text([Literal(Indent(16)), SectionClose, Literal(Indent(16))]) == CloseTag
  {
    TextPair(Literal(Indent(16)), SectionOpen(cls));
    var back := [Literal(Indent(16)), SectionClose, Literal(Indent(16))];
    assert back[1..] == [SectionClose, Literal(Indent(16))];
    TextPair(SectionClose, Literal(Indent(16)));
  }

  lemma BlockHtmlOpens(s: Section, be: Backends)
    requires Renders(s)
    ensures OpenTag(ClassName(TemplateOf(s.layout))) <= BlockHtml(s, be)
  {
    var main, side, fig := MainHtml(s, be), SideHtml(s, be), FigureHtml(s, be);
    var cls := ClassName(TemplateOf(s.layout));
    var inner := match TemplateOf(s.layout)
      case Split => ColumnDiv("split-left", SplitLeft(SplitTitle(s), main)) + ColumnDiv("split-right", SplitRight(fig, side))
      case Sidebar => ColumnDiv("sidebar-col", SidebarCol(side)) + ColumnDiv("main-col", MainCol(main, fig))
      case Hero => ColumnDiv("hero-container", MainCol(main, fig))
      case Standard => Line(20, Figure(fig)) + Line(20, MainBody(main));
    assert BlockPieces(s, be) == SectionEl(cls, inner);
    SectionElText(cls, inner);
    FrameTexts(cls);
  }
}
