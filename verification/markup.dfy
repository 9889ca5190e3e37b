/**
 * The vocabulary of a rendered section block.
 *
 * A block is a flat sequence of pieces. Content pieces carry what the
 * renderer computed from the section (title, converted texts, chart figure,
 * the divider graphic); structural pieces stand for the template's own
 * `<section>` and column `<div>` tags; literal pieces hold the remaining fixed
 * text of the template, whitespace included. `Text` gives the exact markup of
 * a block. `Contents`, `Openings` and `Column` read back the template's slots:
 * which values fill them, which sections the template opens and what each
 * template column holds. A content piece is an opaque value interpolated
 * without escaping, so these say nothing about markup inside that value.
 */
module Markup {

  datatype Piece =
    | Literal(text: string)              // fixed template text
    | SectionOpen(layoutClass: string)   // <section class="layout-...">
    | SectionClose
    | ColumnOpen(columnClass: string)    // <div class="..."> of a column
    | ColumnClose
    | Heading(title: string)             // <h1>...</h1>
    | Label(caption: string)             // <h4>...</h4>
    | Divider                            // the branded divider graphic
    | MainBody(html: string)             // converted main text
    | SideBody(html: string)             // converted side text
    | Figure(html: string)               // chart figure (may be empty)

  /** A newline followed by `n` spaces: the indentation of a template line. */
  function Indent(n: nat): (s: string)
    ensures |s| == n + 1
  {
    if n == 0 then "\n" else Indent(n - 1) + " "
  }

  /** The branded SVG divider returned by `_get_graphic`: a fixed string. */
  const DividerSvg: string :=
    Indent(8) + "<div style=\"margin: 20px 0; opacity: 0.6;\">"
    + Indent(12) + "<svg width=\"50\" height=\"6\" viewBox=\"0 0 50 6\">"
    + Indent(16) + "<rect width=\"50\" height=\"6\" fill=\"#bae9f4\" />"
    + Indent(12) + "</svg>"
    + Indent(8) + "</div>"
    + Indent(8)

  function PieceText(p: Piece): string {
    match p
    case Literal(t) => t
    case SectionOpen(c) => "<section class=\"layout-" + c + "\">"
    case SectionClose => "</section>"
    case ColumnOpen(c) => "<div class=\"" + c + "\">"
    case ColumnClose => "</div>"
    case Heading(t) => "<h1>" + t + "</h1>"
    case Label(t) => "<h4>" + t + "</h4>"
    case Divider => DividerSvg
    case MainBody(h) => h
    case SideBody(h) => h
    case Figure(h) => h
  }

  /** The markup of a sequence of pieces: their texts, in order. */
  function Text(ps: seq<Piece>): string {
    if ps == [] then "" else PieceText(ps[0]) + Text(ps[1..])
  }

  lemma {:induction false} TextAppend(a: seq<Piece>, b: seq<Piece>)
    ensures Text(a + b) == Text(a) + Text(b)
  {
    if a == [] {
      assert a + b == b;
    } else {
      assert (a + b)[1..] == a[1..] + b;
      TextAppend(a[1..], b);
    }
  }

  predicate IsContent(p: Piece) {
    p.Heading? || p.Label? || p.Divider? || p.MainBody? || p.SideBody? || p.Figure?
  }

  /** The content pieces of `ps`, in order, without the template's own markup. */
  function Contents(ps: seq<Piece>): seq<Piece>
  {
    if ps == [] then []
    else if IsContent(ps[0]) then [ps[0]] + Contents(ps[1..])
    else Contents(ps[1..])
  }

  /** No content piece is lost by `Contents`. */
  lemma {:induction false} ContentsKeeps(ps: seq<Piece>, p: Piece)
    requires p in ps && IsContent(p)
    ensures p in Contents(ps)
  {
    if ps[0] != p {
      ContentsKeeps(ps[1..], p);
    }
  }

  lemma {:induction false} ContentsAppend(a: seq<Piece>, b: seq<Piece>)
    ensures Contents(a + b) == Contents(a) + Contents(b)
  {
    if a == [] {
      assert a + b == b;
    } else {
      assert (a + b)[1..] == a[1..] + b;
      ContentsAppend(a[1..], b);
    }
  }

  /** The layout classes of the template-opened sections in `ps`, in order. */
  function Openings(ps: seq<Piece>): (cs: seq<string>)
    ensures |cs| <= |ps|
  {
    if ps == [] then []
    else if ps[0].SectionOpen? then [ps[0].layoutClass] + Openings(ps[1..])
    else Openings(ps[1..])
  }

  lemma {:induction false} OpeningsAppend(a: seq<Piece>, b: seq<Piece>)
    ensures Openings(a + b) == Openings(a) + Openings(b)
  {
    if a == [] {
      assert a + b == b;
    } else {
      assert (a + b)[1..] == a[1..] + b;
      OpeningsAppend(a[1..], b);
    }
  }

  /** The pieces of `ps` before its first column close (all of `ps` if none). */
  function UpToClose(ps: seq<Piece>): (r: seq<Piece>)
    ensures |r| <= |ps| && r == ps[..|r|]
    ensures ColumnClose !in r
  {
    if ps == [] || ps[0] == ColumnClose then [] else [ps[0]] + UpToClose(ps[1..])
  }

  /** The content of the first template column of class `cls` in `ps`: the
      content pieces between its opening and the next column close. */
  function Column(ps: seq<Piece>, cls: string): seq<Piece> {
    if ps == [] then []
    else if ps[0] == ColumnOpen(cls) then Contents(UpToClose(ps[1..]))
    else Column(ps[1..], cls)
  }

  lemma {:induction false} UpToCloseAppend(a: seq<Piece>, b: seq<Piece>)
    requires ColumnClose !in a
    ensures UpToClose(a + [ColumnClose] + b) == a
  {
    if a == [] {
      assert (a + [ColumnClose] + b)[0] == ColumnClose;
    } else {
      assert (a + [ColumnClose] + b)[1..] == a[1..] + [ColumnClose] + b;
      UpToCloseAppend(a[1..], b);
    }
  }

  lemma {:induction false} ColumnSkip(a: seq<Piece>, b: seq<Piece>, cls: string)
    requires ColumnOpen(cls) !in a
    ensures Column(a + b, cls) == Column(b, cls)
  {
    if a != [] {
      assert (a + b)[0] == a[0];
      assert (a + b)[1..] == a[1..] + b;
      ColumnSkip(a[1..], b, cls);
    } else {
      assert a + b == b;
    }
  }

  lemma ColumnAt(before: seq<Piece>, items: seq<Piece>, after: seq<Piece>, cls: string)
    requires ColumnOpen(cls) !in before && ColumnClose !in items
    ensures Column(before + [ColumnOpen(cls)] + items + [ColumnClose] + after, cls) == Contents(items)
  {
    var rest := [ColumnOpen(cls)] + items + [ColumnClose] + after;
    assert before + [ColumnOpen(cls)] + items + [ColumnClose] + after == before + rest;
    ColumnSkip(before, rest, cls);
    assert rest[1..] == items + [ColumnClose] + after;
    UpToCloseAppend(items, after);
  }
}
