/**
 * The section loop of `ReportRenderer.create_pdf`: every section, in input
 * order, is rendered with the template its layout selects and its block is
 * appended to the accumulated body markup.
 */
module Assembly {
  import opened Wrappers
  import opened Markup
  import opened Renderer

  /** The concatenation of a sequence of sequences, in order. */
  function Flatten<T>(xss: seq<seq<T>>): seq<T> {
    if xss == [] then [] else xss[0] + Flatten(xss[1..])
  }

  lemma {:induction false} FlattenAppend<T>(a: seq<seq<T>>, b: seq<seq<T>>)
    ensures Flatten(a + b) == Flatten(a) + Flatten(b)
  {
    if a == [] {
      assert a + b == b;
    } else {
      assert (a + b)[1..] == a[1..] + b;
      FlattenAppend(a[1..], b);
    }
  }

  lemma FlattenOne<T>(x: seq<T>)
    ensures Flatten([x]) == x
  {
    assert [x][1..] == [];
  }

  /** No section of `ss` makes the renderer raise. */
  predicate AllRender(ss: seq<Section>) {
    forall i :: 0 <= i < |ss| ==> Renders(ss[i])
  }

  /** The failure that aborts the whole pass: the chart of section `section`
      has a list of series as its data. No body is produced. */
  datatype Failure = ChartDataNotMapping(section: nat)

  /** Each section's block markup, in input order. */
  function Blocks(ss: seq<Section>, be: Backends): seq<string>
    requires AllRender(ss)
  {
    seq(|ss|, i requires 0 <= i < |ss| => BlockHtml(ss[i], be))
  }

  /** The document body: one block per section, concatenated in input order. */
  function Body(ss: seq<Section>, be: Backends): string
    requires AllRender(ss)
  {
    Flatten(Blocks(ss, be))
  }

  /** The body as pieces: each section's block pieces, in input order. */
  function BodyPieces(ss: seq<Section>, be: Backends): seq<Piece>
    requires AllRender(ss)
  {
    Flatten(seq(|ss|, i requires 0 <= i < |ss| => BlockPieces(ss[i], be)))
  }

  /** Rendering the sections of `a + b` renders those of `a`, then those of `b`. */
  lemma BodyAppend(a: seq<Section>, b: seq<Section>, be: Backends)
    requires AllRender(a) && AllRender(b)
    ensures Body(a + b, be) == Body(a, be) + Body(b, be)
  {
    assert Blocks(a + b, be) == Blocks(a, be) + Blocks(b, be);
    FlattenAppend(Blocks(a, be), Blocks(b, be));
  }

  /** Adding one section appends exactly that section's block. */
  lemma BodySnoc(ss: seq<Section>, s: Section, be: Backends)
    requires AllRender(ss) && Renders(s)
    ensures Body(ss + [s], be) == Body(ss, be) + BlockHtml(s, be)
  {
    BodyAppend(ss, [s], be);
    assert Blocks([s], be) == [BlockHtml(s, be)];
    FlattenOne(BlockHtml(s, be));
  }

  /** The accumulator only grows: the body of a shorter prefix of the
      sections is a prefix of the body of a longer one. */
  lemma BodyPrefixGrows(ss: seq<Section>, i: nat, j: nat, be: Backends)
    requires AllRender(ss) && i <= j <= |ss|
    ensures Body(ss[..i], be) <= Body(ss[..j], be)
  {
    assert ss[..j] == ss[..i] + ss[i..j];
    BodyAppend(ss[..i], ss[i..j], be);
  }

  /** Section `i`'s block sits in the body right after the blocks of the
      sections before it, and nothing else is between them: no section is
      dropped, duplicated or moved. */
  lemma BlockAt(ss: seq<Section>, i: nat, be: Backends)
    requires AllRender(ss) && i < |ss|
    ensures var start, end := |Body(ss[..i], be)|, |Body(ss[..i + 1], be)|;
      && end == start + |BlockHtml(ss[i], be)|
      && end <= |Body(ss, be)|
      && Body(ss, be)[start..end] == BlockHtml(ss[i], be)
  {
    assert ss[..i + 1] == ss[..i] + [ss[i]];
    BodySnoc(ss[..i], ss[i], be);
    assert ss == ss[..i + 1] + ss[i + 1..];
    BodyAppend(ss[..i + 1], ss[i + 1..], be);
  }

  lemma BodyPiecesSnoc(ss: seq<Section>, s: Section, be: Backends)
    requires AllRender(ss) && Renders(s)
    ensures BodyPieces(ss + [s], be) == BodyPieces(ss, be) + BlockPieces(s, be)
  {
    var pss := seq(|ss|, i requires 0 <= i < |ss| => BlockPieces(ss[i], be));
    assert seq(|ss + [s]|, i requires 0 <= i < |ss + [s]| => BlockPieces((ss + [s])[i], be)) == pss + [BlockPieces(s, be)];
    FlattenAppend(pss, [BlockPieces(s, be)]);
    FlattenOne(BlockPieces(s, be));
  }

  /** The body markup is the text of the body's pieces. */
  lemma {:induction false} BodyText(ss: seq<Section>, be: Backends)
    requires AllRender(ss)
    ensures Text(BodyPieces(ss, be)) == Body(ss, be)
  {
    if ss == [] {
      assert BodyPieces(ss, be) == [];
    } else {
      var init, last := ss[..|ss| - 1], ss[|ss| - 1];
      assert ss == init + [last];
      BodyText(init, be);
      BodyPiecesSnoc(init, last, be);
      TextAppend(BodyPieces(init, be), BlockPieces(last, be));
      BodySnoc(init, last, be);
    }
  }

  /** The body opens one section per input section, in input order, each
      with the class of the template that section's layout selects. */
  lemma {:induction false} BodyLayouts(ss: seq<Section>, be: Backends)
    requires AllRender(ss)
    ensures Openings(BodyPieces(ss, be)) == seq(|ss|, i requires 0 <= i < |ss| => ClassName(TemplateOf(ss[i].layout)))
  {
    if ss == [] {
      assert BodyPieces(ss, be) == [];
    } else {
      var init, last := ss[..|ss| - 1], ss[|ss| - 1];
      assert ss == init + [last];
      BodyLayouts(init, be);
      BodyPiecesSnoc(init, last, be);
      OpeningsAppend(BodyPieces(init, be), BlockPieces(last, be));
      BlockOpening(last, be);
    }
  }

  /** One iteration of `create_pdf`'s loop: the block a section appends,
      or the error raised while drawing its chart. */
  method RenderSection(section: Section, be: Backends) returns (r: Result<string, ChartError>)
    ensures r.Err? <==> ChartRaises(section.chart)
    ensures r.Ok? ==> Renders(section) && r.value == BlockHtml(section, be)
  {
    var layout := section.layout.GetOr("standard");
    var mainMd := be.markdownWithTables(section.mainText.GetOr(""));
    var sideMd := be.markdown(section.sideText.GetOr(""));
    var chartSvg := "";
    if ChartPresent(section.chart) {
      var chart := section.chart.value;
      var svgRaw := SvgChart(chart.data, chart.title, be.drawSvg);
      if svgRaw.Err? {
        return Err(svgRaw.error);
      }
      chartSvg := FigureOpen + svgRaw.value + CaptionOpen + Caption(chart.title) + "</div></div>";
    }
    assert Renders(section) && chartSvg == FigureHtml(section, be);
    assert mainMd == MainHtml(section, be) && sideMd == SideHtml(section, be);
    var block;
    if layout == "split" {
      block := Text(SplitPieces(section.title.GetOr("Overview"), mainMd, chartSvg, sideMd));
    } else if layout == "sidebar" {
      block := Text(SidebarPieces(mainMd, chartSvg, sideMd));
    } else if layout == "hero" {
      block := Text(HeroPieces(mainMd, chartSvg));
    } else {
      block := Text(StandardPieces(mainMd, chartSvg));
    }
    return Ok(block);
  }

  /** `create_pdf`'s loop: starting from the empty string, append the block
      of each section in turn. A chart whose data is a list of series makes
      the drawer raise, which abandons the pass with no body at all. */
  method AssembleSections(sections: seq<Section>, be: Backends) returns (r: Result<string, Failure>)
    ensures r.Ok? <==> AllRender(sections)
    ensures r.Ok? ==> AllRender(sections) && r.value == Body(sections, be)
    ensures r.Err? ==>
      var k := r.error.section;
      k < |sections| && ChartRaises(sections[k].chart) && AllRender(sections[..k])
  {
    var htmlSections := "";
    var i := 0;
    while i < |sections|
      invariant 0 <= i <= |sections|
      invariant AllRender(sections[..i])
      invariant htmlSections == Body(sections[..i], be)
    {
      var block := RenderSection(sections[i], be);
      if block.Err? {
        return Err(ChartDataNotMapping(i));
      }
      assert sections[..i + 1] == sections[..i] + [sections[i]];
      BodySnoc(sections[..i], sections[i], be);
      htmlSections := htmlSections + block.value;
      i := i + 1;
    }
    assert sections[..i] == sections;
    return Ok(htmlSections);
  }
}
