# Report renderer: section assembly

A Dafny model of how `ReportRenderer.create_pdf` in `renderer.py` turns a report's
ordered list of sections into the HTML body that is later handed to the page
template and the PDF writer.

For each section, in input order, the renderer:

- reads its `layout`, which is `"standard"` when absent;
- converts `main_text` (Markdown with the tables and footnotes extensions) and
  `side_text` (plain Markdown), each read as `""` when absent;
- builds a chart figure only when the section has a non-empty `chart` record.
  The figure wraps the SVG drawn by `_make_svg_chart` and the caption
  `"FIGURE: "` followed by the chart title. `_make_svg_chart` draws nothing for
  missing or empty data. It raises on data that is a non-empty list of series,
  because such a list has no `keys()`; that abandons the whole pass with no body;
- appends one block of markup to the accumulated body. Four templates exist:
  split, sidebar, hero, and standard for every other layout value.

Files:

- `wrappers.dfy`: `Option`, the shape of a key that may be absent, and
  `Result`, the outcome of an operation that may raise.
- `markup.dfy`: the block vocabulary. A block is a flat sequence of `Piece`s.
  `Text` gives its exact markup, whitespace of the source's f-strings included.
  `Contents`, `Openings` and `Column` read back the template's slots: which
  values fill them, which template-opened sections a block has, and what each
  template column holds. Interpolated values are opaque and are not parsed.
  `DividerSvg` is the constant `_get_graphic` returns.
- `renderer.dfy`: sections and charts, the layout dispatch, the chart figure,
  the four templates, and what each template puts where.
  Blocks exist only for sections whose chart does not raise (`Renders`), so the
  block functions and the lemmas about them require it.
- `assembly.dfy`: the accumulating loop (`AssembleSections`). It is proved to
  compute `Body`, the in-order concatenation of the section blocks, when no
  chart raises. Otherwise it reports the first section whose chart raises. Lemmas about
  `Body` state that nothing is dropped, duplicated or reordered.

The Markdown converter and the matplotlib drawer are foreign libraries. They
are the function-valued fields of `Backends`, a parameter of every operation,
so each property holds whatever they return.

## Model

| member | source | states |
|---|---|---|
| `Renderer.TemplateOf` | renderer.py:45-98 | The split, sidebar and hero templates are chosen exactly for the layouts `"split"`, `"sidebar"` and `"hero"`. Every other value, and a missing layout, selects the standard template. |
| `Renderer.OtherLayoutsRenderStandard` | renderer.py:98-104 | A section whose layout is absent or anything but the three named layouts (e.g. `chapter`, `box`, `annex`) renders as a standard block: chart figure, then main text. |
| `Renderer.SvgChart` | renderer.py:17-22 | Missing or empty chart data gives the empty string and nothing is drawn. A non-empty mapping gives the drawer's output for its bars and the title. A non-empty list of series raises, because it has no `keys()`. |
| `Renderer.ChartFigure` | renderer.py:52-55 | The figure raises exactly when the chart record is non-empty and its data is a non-empty list of series. It is empty exactly when the section has no chart or an empty chart record. Otherwise it is the wrapper holding the SVG, followed by the caption div. |
| `Renderer.Caption` | renderer.py:55 | The caption is the literal `"FIGURE: "` followed by the chart title, which a missing title shows as `None`. |
| `Renderer.FigureWithoutData` | renderer.py:18-55 | A non-empty chart record without data does not raise. It still yields its wrapper and caption, around an empty image. |
| `Renderer.MainHtml` | renderer.py:48 | The main text goes through the tables-and-footnotes converter. A missing main text is converted as `""`. |
| `Renderer.SideHtml` | renderer.py:49 | The side text goes through the plain converter. A missing side text is converted as `""`. |
| `Renderer.SplitTitle` | renderer.py:62 | The split heading is the section title, or `"Overview"` when absent. |
| `Renderer.SplitLayout` | renderer.py:59-71 | A split block has one template-opened `layout-split` section. Its content is title, divider, main text, chart, side text. The left template column holds title, divider, main text; the right one holds chart, then side text. |
| `Renderer.SidebarLayout` | renderer.py:74-86 | A sidebar block has one template-opened `layout-sidebar` section. Its sidebar template column holds the `KEY INSIGHTS` header, the divider and the side text. Its main template column follows, with main text, then chart. |
| `Renderer.HeroLayout` | renderer.py:89-96 | A hero block has one template-opened `layout-hero` section whose container column holds main text, then chart. No title, side text, header or divider appears anywhere in it. |
| `Renderer.StandardLayout` | renderer.py:99-104 | A standard block has one template-opened `layout-standard` section holding the chart, then the main text. No title, side text, header or divider appears in it. |
| `Renderer.SplitBlock` | renderer.py:58-71 | For a section whose layout is `"split"`, the block is the split layout filled with the section's title (or default), converted texts and chart figure. |
| `Renderer.SidebarBlock` | renderer.py:73-86 | For a `"sidebar"` section, the block is the sidebar layout filled with its converted texts and chart figure. |
| `Renderer.HeroBlock` | renderer.py:88-96 | For a `"hero"` section, the block holds its main text then its chart figure, and never its title or side text. |
| `Renderer.StandardBlock` | renderer.py:98-104 | For any section that falls to the standard template, the block holds its chart figure then its main text, and never its title or side text. |
| `Renderer.BlockOpening` | renderer.py:58-104 | For a section whose chart does not raise, the block has exactly one template-opened section, whose class names the template the layout selected. |
| `Renderer.ClassNameInjective` | renderer.py:58-104 | The four templates use four distinct section classes. |
| `Renderer.SectionElText` | renderer.py:59-71 | A block's markup is its opening frame, then its inner markup, then its closing frame, with nothing added or reordered. |
| `Renderer.FrameTexts` | renderer.py:59-71 | The frame every template shares: the indented `<section class="layout-…">` tag before the inner markup, and the indented `</section>` plus trailing indentation after it. |
| `Renderer.BlockHtmlOpens` | renderer.py:58-104 | Every block's markup starts with the indented opening tag of its template's section, so the template can be read back from the markup. |
| `Assembly.RenderSection` | renderer.py:44-104 | One iteration raises exactly when the section's chart raises. Otherwise it yields exactly the section's block. |
| `Assembly.AssembleSections` | renderer.py:41-104 | The pass succeeds exactly when no section's chart raises. It then starts from the empty accumulator, appends each section's block, and ends with exactly `Body(sections)`. Otherwise it fails at a section whose chart raises, and every section before that one renders. |
| `Assembly.BodyAppend` | renderer.py:42-44 | Rendering `a + b` gives the body of `a` followed by the body of `b`. |
| `Assembly.BodySnoc` | renderer.py:44-104 | One more section appends exactly that section's block to the body. |
| `Assembly.BodyPrefixGrows` | renderer.py:42-99 | The accumulator only grows: the body of a shorter prefix of the sections is a prefix of the body of a longer one. |
| `Assembly.BlockAt` | renderer.py:44-104 | Section `i`'s block occupies the body exactly from the end of the blocks of sections `0..i-1`. |
| `Assembly.BodyText` | renderer.py:44-104 | The body markup is the text of the body's pieces. The structural lemmas therefore describe the template markup around the interpolated values. |
| `Assembly.BodyLayouts` | renderer.py:44-104 | The body has one template-opened section per input section, in input order, each with the class its layout selects. |

## Left out

- Markdown conversion, matplotlib drawing and the `brand.mplstyle` global style (renderer.py:1-11, 20-29) are foreign libraries. They are the `Backends` parameters and may be any functions.
- The renderer's constructor (renderer.py:14-16) is left out because it only loads templates from disk.
- Everything after the loop is left out as I/O and foreign calls: the logo file check, the Jinja2 page template, and the WeasyPrint PDF output (renderer.py:106-123). The model ends at the body string `html_sections`.
- `data_package['sections']` is taken as the given section sequence. A package without `sections`, or a section that is not a record, would raise in the source; that case is not modelled.
- A key that is present with a null value is modelled as absent. In the source, `.get(key, default)` returns null in that case, not the default: a null split `title` prints `None`, and a null `main_text` is passed to the converter as is.
- A null-valued key still makes the chart record non-empty. `Chart.nullOrOtherKeys` counts null-valued keys along with keys the renderer never reads. So `{'title': None}` is a present chart, and its caption reads `FIGURE: None`.
- Chart data is a mapping, modelled as an ordered list of key/value bars, or a list of series. The drawer's output for a mapping is abstract. A non-empty list of series raises at renderer.py:22 and aborts `create_pdf`. Other shapes, such as a non-empty string, are not modelled. Chart titles are strings.
- Interpolated values are opaque slots: the title, the converted texts and the SVG are neither parsed nor escaped. Raw HTML in them, such as a `</div>` in a converted text, changes the actual structure of the page. The structural lemmas are about the template's own tags only.
- The renderer has four templates, and a caption that is the fixed `"FIGURE: "` prefix followed by the chart title. It has no figure or table numbering, chapter counters or table of contents, so neither does the model.
- `_get_graphic` (renderer.py:31-39) takes no input and always returns the same string. It is the constant `Markup.DividerSvg`, the text of every `Divider` piece, and has no row of its own.
