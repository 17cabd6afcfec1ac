# tebook draft pipeline in Dafny

tebook turns a plain-text draft into a presentation. The draft is split
into lines. A line whose stripped form starts with `@@` is a comment. A line
`@1` .. `@7`, optionally followed by whitespace and text, opens a slide of
that type. Every other line after the first marker belongs to the open
slide; lines before it are dropped. Each slide is a `Slide` record, whose
`__post_init__` strips its content and its raw content. The renderer then
produces one of four outputs:

- an HTML page of navigable slides;
- an HTML document whose blocks appear one by one;
- an HTML document that shows every block at once;
- a Markdown document.

In every HTML layout, each slide becomes a fragment chosen by its type:
- headings;
- text with inline markup (`{{code}}`, `{strong}`, `[[link]]`, line breaks as `<br>`);
- Latin words in italics, for `@3`;
- a definition or task box;
- escaped code;
- a CSV table.

The project models that pipeline. It is organised in these modules:

| Module | Models |
|---|---|
| `Text` | `str.strip`, `str.split`, `str.join`, decimal numbers |
| `Slides` | `tebook/slide.py` |
| `Parser` | `parse_draft` |
| `Escape` | `escape_html` |
| `Inline` | `process_text` and `process_latin_italic` |
| `Table` | `render_table` |
| `Fragment` | `render_slide_content` |
| `Markdown` | `render_markdown` |
| `Layouts` | the three HTML layouts and their slide loop |
| `Pages` | the fixed lines of each layout |
| `Render` | the three layouts and the `render_html` dispatch |

The source's loops are methods, each proved equal to a function that
specifies it. The properties are proved about those functions:

| Method | Specification functions |
|---|---|
| `ParseDraft` | `ParseDraftSpec`, a fold of one step per line, and `Grouped`, an independent grouping of the lines by marker |
| `RenderTable` | `TableHtml` |
| `RenderMarkdown` | `MarkdownOf` |
| the layouts | `SlidesPage`, `DocumentPage`, `FullDocumentPage` |

`Slide` is a class, because `__post_init__` updates its fields in place.

The Latin-italics pass runs on the HTML that `process_text` has already
produced, so two-letter tag names are wrapped as well: `<br>` becomes `<` +
an italic span holding `br` + `>`. The model keeps this behaviour, and
`Inline.TagNamesWrapped` states it.

## Model

| member | source | states |
|---|---|---|
| Parser.ParseDraft | tebook/parser.py:6-52 | the slides built by the line loop are exactly the fold of the per-line step over the split draft, and also exactly the grouping of the non-comment lines by marker |
| Parser.ParseDraftSpec | tebook/parser.py:12-50 | `parse_draft` as a function: the draft split at newlines, one `Step` per line from the idle state, then the open slide closed; `ParseMatchesGrouping` proves it equal to `Grouped` and `ParseTypes` gives its slide types |
| Parser.Step | tebook/parser.py:19-43 | one pass of the loop: a comment line changes nothing, a marker closes the open slide and opens one seeded as `MarkerSeeds` states, any other line extends the open slide, or is dropped when none is open (`IdleStaysIdle`) |
| Parser.IsComment | tebook/parser.py:20 | a line is a comment when its stripped form starts with `@@`; `MarkerIsNotComment` shows that no marker line is one |
| Parser.MatchMarker | tebook/parser.py:23 | a match has at least two characters and its group 1 is the line's second character; `MarkerShape` states when it matches and `Remaining` what its group 2 gives |
| Parser.Grouped | tebook/parser.py:19-50 | the independent description of the result: the non-comment lines cut into runs that each start with a marker, one slide per run; `ParseMatchesGrouping` proves it equal to the fold |
| Parser.Emit | tebook/parser.py:26-30 | appending the slide built from the closed buffers extends the slide list by exactly that finished slide |
| Parser.ParseMatchesGrouping | tebook/parser.py:19-50 | the step-by-step fold and the grouping by marker give the same slides for every draft |
| Parser.MarkerShape | tebook/parser.py:23 | a line is a marker if and only if it is `@`, a digit 1 to 7, and then either the end of the line or a whitespace character |
| Parser.NotMarkers | tebook/parser.py:23 | `@8`, `@1x`, `@12` and ` @1` are not markers; `@1` and `@7 x` are |
| Parser.MarkerIsNotComment | tebook/parser.py:20-24 | a marker line is never skipped as a comment |
| Parser.Remaining | tebook/parser.py:35-36 | the text after a marker is group 2 stripped, that is the rest of the line after the two marker characters, stripped |
| Parser.MarkerSeeds | tebook/parser.py:32-39 | a marker opens a slide of its digit; the slide's content and raw lines start with the stripped rest and the whole line when the rest is not blank, and start empty otherwise |
| Parser.Finish | tebook/parser.py:26-30 | a closed slide has type `@` + its digit and both of its texts stripped |
| Parser.CommentLineIsInert | tebook/parser.py:20-21 | removing a comment line from anywhere in the list of draft lines leaves the slides unchanged |
| Parser.IdleStaysIdle | tebook/parser.py:40-43 | before the first marker, lines open nothing and add to nothing |
| Parser.PreambleDropped | tebook/parser.py:40-43 | in the list of draft lines, the lines before the first marker do not affect the result |
| Parser.ParseTypes | tebook/parser.py:23-50 | the slide types are, in order, `@` + the digit of each marker line, so there is one slide per marker |
| Parser.MarkerTypesValid | tebook/parser.py:23-27 | the type that every marker line gives is one of `@1` .. `@7` |
| Parser.ParsedKindsKnown | tebook/parser.py:23-50 | every slide the parse produces has one of the seven known types `@1` .. `@7` |
| Parser.EmptyDraft | tebook/parser.py:45-52 | an empty draft gives no slides |
| Parser.BareMarkerThenMarker | tebook/parser.py:25-39 | a bare marker followed by another marker gives an empty slide and then the second slide with its text |
| Parser.MultiLineBody | tebook/parser.py:40-50 | a marker with text followed by a text line gives one slide whose content is both lines joined by a newline, and whose raw content includes the marker line |
| Parser.DraftOfLines | tebook/parser.py:13 | a draft written as lines without line breaks, joined by newlines, parses as that list of lines |
| Parser.CommentLineIsInertInDraft | tebook/parser.py:20-21 | removing a comment line from the text of a draft leaves the slides unchanged |
| Parser.PreambleDroppedInDraft | tebook/parser.py:40-43 | removing the lines before the first marker from the text of a draft leaves the slides unchanged |
| Slides.KindOf | tebook/renderer.py:274-320 | a slide type is one of the seven known kinds if and only if it is `@` followed by a digit 1 to 7 |
| Slides.Slide.constructor | tebook/slide.py:5-15 | the constructed slide keeps the type and holds both texts stripped |
| Slides.Slide.PostInit | tebook/slide.py:12-15 | the content and raw content are replaced by their stripped forms, and the type is unchanged |
| Slides.Rebuild | tebook/slide.py:12-15 | building a slide again from a constructed slide's fields gives the same fields, because stripping is idempotent |
| Text.Strip | tebook/slide.py:14-15 | the result has no leading or trailing whitespace and is no longer than the input |
| Text.StripShape | tebook/slide.py:14-15 | the result is the input without its leading and trailing runs of whitespace, and it is empty if and only if the input is all whitespace |
| Text.StripIdempotent | tebook/slide.py:14-15 | stripping twice is stripping once |
| Text.Split | tebook/parser.py:13 | splitting at newlines gives one more part than there are newlines; no part holds a newline; joining the parts with newlines gives back the draft |
| Text.SplitJoin | tebook/parser.py:13 | lines without a newline, joined with newlines, split back into the same lines |
| Text.NatToStringRoundTrip | tebook/renderer.py:117 | the decimal text of a slide index reads back as that index |
| Escape.EscapeHtml | tebook/renderer.py:712-718 | the five whole-string replacements, `&` first; `EscapeHtmlIsCharwise` proves it equal to the per-character escape map, `EscapeHtmlSafe` that no markup character survives and `EscapeRoundTrip` that unescaping inverts it |
| Escape.EscapeHtmlSafe | tebook/renderer.py:712-718 | escaped text holds no `<`, `>`, `"` or `'` |
| Escape.EscapeHtmlIsCharwise | tebook/renderer.py:712-718 | the five whole-string replacements, `&` first, equal escaping each character on its own |
| Escape.AmpersandsBeginEntities | tebook/renderer.py:714 | every `&` in the output begins one of the five entities, so nothing is escaped twice |
| Escape.EscapeRoundTrip | tebook/renderer.py:712-718 | unescaping the output gives back the text |
| Inline.Substitute | tebook/renderer.py:331-343 | one `re.sub` with a delimited pattern, as a left-to-right scanner; `SubstituteMatch` states the replacement of a match and where scanning resumes, `SubstituteUnclosed` that an unmatched opener is copied |
| Inline.ProcessText | tebook/renderer.py:323-348 | the code, strong and link substitutions in that order, then newlines to `<br>`; the `ProcessText` lemmas below state each pass and the result's shape |
| Inline.Italicize | tebook/renderer.py:351-358 | the scanner of `\b[a-zA-Z]{2,}\b`; `ItalicizeIsByWords` proves it equal to the word-by-word reference and `ItalicizeKeepsOut` that it adds only span markup |
| Inline.ProcessLatinItalic | tebook/renderer.py:351-358 | the scanner started at a word boundary, that is at the start of the text |
| Inline.SubstituteMatch | tebook/renderer.py:331-343 | a delimited match whose group holds no stop character is replaced by its wrapped group, and scanning resumes after the closing delimiter |
| Inline.SubstituteUnclosed | tebook/renderer.py:331-343 | text without the closing character is left unchanged |
| Inline.ProcessTextCode | tebook/renderer.py:331 | `{{x}}` becomes `<code>x</code>` |
| Inline.ProcessTextStrong | tebook/renderer.py:334 | `{x}` becomes `<strong>x</strong>` |
| Inline.ProcessTextLink | tebook/renderer.py:337-343 | `[[x]]` becomes a link that opens in a new tab when x starts with `http://` or `https://`, and an image otherwise |
| Inline.ProcessTextNoNewline | tebook/renderer.py:346 | the processed text has no newline |
| Inline.ProcessTextPlain | tebook/renderer.py:323-348 | text without `{`, `[` or a newline is unchanged |
| Inline.ItalicizeIsByWords | tebook/renderer.py:351-358 | the scanner wraps exactly those maximal runs of word characters that are made of two or more ASCII letters, and copies everything else |
| Inline.ItalicizeKeepsOut | tebook/renderer.py:351-358 | the pass adds no character except those of the span markup |
| Inline.TagNamesWrapped | tebook/renderer.py:292 | a name of two or more letters between two non-word characters is wrapped, including the name of a tag that `process_text` produced |
| Table.RenderTable | tebook/renderer.py:361-380 | the loop builds exactly the lines of the table specification, joined with newlines |
| Table.AppendRow | tebook/renderer.py:372-375 | a row adds its opening line, one escaped cell line per cell and its closing line |
| Table.TableLinesEmpty | tebook/renderer.py:363-365 | the table has no rows if and only if the CSV text is all whitespace |
| Table.TableLinesShape | tebook/renderer.py:363 | every row line is non-empty, stripped, and holds no newline |
| Table.CellsShape | tebook/renderer.py:370 | a row has one more cell than it has commas, and each cell is stripped and holds no comma |
| Table.CellLineMarkup | tebook/renderer.py:374 | a cell line holds exactly two `<`: the cell's own tags, since the cell text is escaped |
| Table.RowCount | tebook/renderer.py:369-375 | the table holds one row per CSV line |
| Table.HeaderRow | tebook/renderer.py:367-375 | the first row comes right after the table opening, with `th` cells |
| Table.BodyRow | tebook/renderer.py:369-375 | every later row follows the rows before it, with `td` cells |
| Table.TableHtml | tebook/renderer.py:361-380 | the table as a value: the container and table openings, one row block per line, the closings, or the empty-table line without rows; `RenderTable` is proved equal to it |
| Table.TableLines | tebook/renderer.py:363 | the stripped non-blank lines of the stripped CSV text; `TableLinesShape` and `TableLinesEmpty` state their shape and when there are none |
| Table.Cells | tebook/renderer.py:370 | the comma-separated pieces of a line, each stripped; `CellsShape` states their number and shape |
| Fragment.FragmentIndented | tebook/renderer.py:270-320 | every fragment starts with twelve blanks followed by a tag |
| Fragment.TableSlideHasRows | tebook/renderer.py:314-318 | a table slide with content renders its table, and that table has at least one row |
| Fragment.CodeIsEscaped | tebook/renderer.py:302-305 | a code slide shows its stripped text escaped, with no `<` in it, and unescaping gives the text back |
| Fragment.TextKindsSingleLine | tebook/renderer.py:274-320 | every kind except code and table renders as a single line |
| Fragment.PlainTitle | tebook/renderer.py:274-278 | a title without markup shows its text in `h1` |
| Fragment.EmptyContentPlaceholders | tebook/renderer.py:274-305 | with empty content, the headings, body, definition and unknown kinds show their fixed placeholders, and code shows an empty code block |
| Fragment.EmptyTaskSlide | tebook/renderer.py:307-310 | an empty task slide shows the caption "Задача" |
| Fragment.EmptyTableSlide | tebook/renderer.py:314-317 | an empty table slide shows the caption "Порожня таблиця" in its container |
| Fragment.UnknownKindFallback | tebook/renderer.py:320 | an unknown slide type shows its processed text in a plain `div`, without Latin italics |
| Fragment.RenderSlideContent | tebook/renderer.py:270-320 | the fragment of a slide by its kind; the `Fragment` lemmas above state its output for each kind, with and without content |
| Markdown.RenderMarkdown | tebook/renderer.py:688-709 | the loop builds exactly the Markdown document of the slides |
| Markdown.EntryOfSlide | tebook/renderer.py:693-706 | each of the seven types frames the content with its own markup, and an unknown type adds nothing |
| Markdown.MarkdownIsConcat | tebook/renderer.py:692-709 | the document is the entries in order, each followed by the horizontal rule |
| Markdown.MarkdownAppend | tebook/renderer.py:692-709 | the document of two runs of slides is the two documents one after the other |
| Markdown.EntryKeepsContent | tebook/renderer.py:693-706 | a known type keeps its content verbatim between its prefix and suffix |
| Markdown.UnknownLeavesSeparator | tebook/renderer.py:707 | a slide of an unknown type adds only the horizontal rule |
| Markdown.Entry | tebook/renderer.py:693-706 | the Markdown of one slide by its type, empty for an unknown type; `EntryOfSlide` and `EntryKeepsContent` state it per type |
| Markdown.MarkdownOf | tebook/renderer.py:688-709 | the document as a value: each entry followed by the horizontal rule; `RenderMarkdown` is proved equal to it and `MarkdownIsConcat` and `MarkdownAppend` state its shape |
| Layouts.AppendSection | tebook/renderer.py:115-119 | the slide loop appends, per slide, its opening line, its fragment and its closing line |
| Layouts.AppendSlide | tebook/renderer.py:115-119 | one pass of that loop extends the section by the lines of slide `i`: its opening line, its fragment and its closing line |
| Layouts.SectionInPage | tebook/renderer.py:458-461 | the lines of slide i sit 3·i lines after the fixed top of the page |
| Layouts.TutorStylesOnlyForTutor | tebook/renderer.py:80-92 | the tutor styles are inserted right after the head for `html-tut` only |
| Layouts.OpenLineInjective | tebook/renderer.py:116-117 | different slides get different opening lines, and so different ids |
| Layouts.SlideLineAt | tebook/renderer.py:116-117 | the class of slide i is `slide active` if and only if i is 0, and `slide` otherwise; it stands in the opening line between `<div class='` and `' id='slide-`, followed by the index |
| Layouts.CounterReadsCount | tebook/renderer.py:128 | the counter line reads back the number of slides |
| Layouts.OpenLine | tebook/renderer.py:116-117 | the opening line of slide i, carrying its class and its index; `OpenLineInjective` shows different slides get different lines and `SlideLineAt` states its class |
| Layouts.CounterLine | tebook/renderer.py:128 | the counter line `1 / n`; `CounterReadsCount` shows it reads back n |
| Render.RenderHtmlSlides | tebook/renderer.py:34-267 | the slides layout is the head, the tutor styles for `html-tut`, the body opening, one section per slide, the navigation, the counter and the script, joined with newlines |
| Render.RenderHtmlDocument | tebook/renderer.py:383-627 | the document layout has the same shape, with `slide-block` sections and its own script |
| Render.RenderHtmlFullDocument | tebook/renderer.py:630-685 | the full-document layout has the same shape, with `slide-block` sections and the closing tags |
| Render.RenderHtml | tebook/renderer.py:6-31 | `md` gives Markdown whatever the view mode; otherwise `full-document` and `document` pick their layouts, and every other view mode gives slides |
| Render.SlidesPageHasFragments | tebook/renderer.py:115-119 | in the slides page, each slide's fragment follows its opening line at its place |
| Render.DocumentPagesHaveFragments | tebook/renderer.py:458-461 | in both document pages, each block's fragment follows its opening line at its place |
| Render.SlidesCounterCounts | tebook/renderer.py:128 | the counter in the slides page shows the number of slides |
| Render.SlidesPage | tebook/renderer.py:34-267 | the lines of the slides layout; `RenderHtmlSlides` is proved equal to them joined, `SlidesPageHasFragments` and `SlidesCounterCounts` state where the slides and the counter stand |
| Render.DocumentPage | tebook/renderer.py:383-627 | the lines of the document layout; `RenderHtmlDocument` is proved equal to them joined, `DocumentPagesHaveFragments` states where the blocks stand |
| Render.FullDocumentPage | tebook/renderer.py:630-685 | the lines of the full-document layout; `RenderHtmlFullDocument` is proved equal to them joined, `DocumentPagesHaveFragments` states where the blocks stand |

## Left out

- The CSS and JavaScript lines of the three layouts are kept as data: the drawing overlay, navigation, keyboard handling and click-to-reveal behaviour run in the browser and are not modelled.
- The `language` parameter of the layouts is accepted and ignored, as in the source. The defaults of the source's keyword arguments (`"python"`, `"html-stu"`, `"slides"`) are the parameters' default values.
- Regular expressions are not modelled in general. Each pattern the source uses is a dedicated scanner with the same matches.
- `\b` and `\w` in `process_latin_italic` use a fixed set of word characters: ASCII, Latin-1, Latin Extended-A and -B, Cyrillic, and U+02BC. Python's full Unicode tables are not modelled.
- `str.strip` whitespace is the fixed list of characters Python's `str.isspace` accepts.
- The routers, the data access layer, authentication, persistence and the command-line entry point are not part of this model.
- The fallback of `render_table` for a body without rows is modelled, but `render_slide_content` never reaches it, because stripped non-empty content always has a row.
- Fragment.RenderSlideContent: the source's seven text branches are modelled as one branch per outcome. A placeholder for the empty content, the table, and the wrapped processed text are chosen by kind. Each branch's output is stated by the lemmas above.
- Layouts.AppendSection: the fixed lines before and after the slides are appended as whole groups, not one `append` at a time.
- Parser.BareMarkerThenMarker: the example drafts are stated generically for any digits and texts, not for specific strings from the source's documentation.
