/**
 * `render_slide_content` of tebook/renderer.py: the HTML fragment of one
 * slide, chosen by its type. The content is stripped once more; an empty
 * content gives a fixed placeholder for the kinds that have one. Every
 * fragment is indented by twelve blanks.
 */
module Fragment {
  import opened Text
  import opened Slides
  import opened Escape
  import opened Inline
  import opened Table

  /** A line of the slide body, at the depth the layouts place it. */
  function Indented(html: string): string
  {
    Spaces(12) + html
  }

  const CodeOpen := "<pre><code>"
  const CodeClose := "</code></pre>"

  /** The element that holds the text of each kind. */
  function OpenTag(k: Kind): string
  {
    match k
    case Title => "<h1>"
    case Subtitle => "<h2>"
    case Definition => "<div class='definition'>"
    case Task => "<div class='task'>"
    case Table => "<div class='table-container'>"
    case _ => "<div>"
  }

  function CloseTag(k: Kind): string
  {
    match k
    case Title => "</h1>"
    case Subtitle => "</h2>"
    case _ => "</div>"
  }

  /** What the element of each kind holds when the content is empty. */
  function Placeholder(k: Kind): string
  {
    match k
    case Title => "Заголовок"
    case Subtitle => "Підзаголовок"
    case Task => "Задача"
    case Table => "<p>Порожня таблиця</p>"
    case _ => ""
  }

  /** The text of a text kind after the inline passes: `process_text` for
      all of them, followed by the Latin italics for the body kind `@3`. */
  function Processed(k: Kind, content: string): string
  {
    if k == Kind.Body then ProcessLatinItalic(ProcessText(content)) else ProcessText(content)
  }

  /** `render_slide_content`. The branches of the source are grouped: `@5`
      escapes its code whatever it holds; every other kind shows its
      placeholder when the content is empty; `@7` renders the table; the
      rest, unknown types included, wrap their processed text in their
      element. */
  function RenderSlideContent(b: Block): string
  {
    var content := Strip(b.content);
    var k := KindOf(b.slideType);
    if k == Kind.Code then Indented(CodeOpen + EscapeHtml(Strip(content)) + CodeClose)
    else if content == [] then Indented(OpenTag(k) + Placeholder(k) + CloseTag(k))
    else if k == Kind.Table then TableHtml(content)
    else Indented(OpenTag(k) + Processed(k, content) + CloseTag(k))
  }

  // ---------------------------------------------------------------------

  lemma {:induction false} IndentedShape(html: string)
    requires html != [] && html[0] == '<'
    ensures Indented(html)[..12] == Spaces(12) && |Indented(html)| > 12 && Indented(html)[12] == '<'
  {
  }

  /** The element of every kind starts a tag. */
  lemma {:induction false} OpenTagShape(k: Kind)
    ensures OpenTag(k) != [] && OpenTag(k)[0] == '<'
  {
  }

  /** The fixed pieces hold no line break. */
  lemma {:induction false} PiecesOneLine(k: Kind)
    ensures '\n' !in Placeholder(k) && '\n' !in OpenTag(k) && '\n' !in CloseTag(k)
  {
    OpenTagOneLine(k);
    PlaceholderOneLine(k);
  }

  lemma {:induction false} OpenTagOneLine(k: Kind)
    ensures '\n' !in OpenTag(k)
  {
    match k
    case Title =>
    case Subtitle =>
    case Body =>
    case Definition =>
    case Code =>
    case Task =>
    case Table =>
    case Unknown =>
  }

  lemma {:induction false} PlaceholderOneLine(k: Kind)
    ensures '\n' !in Placeholder(k)
  {
    match k
    case Title =>
    case Subtitle =>
    case Body =>
    case Definition =>
    case Code =>
    case Task =>
    case Table =>
    case Unknown =>
  }

  /** Every fragment is a tag indented by twelve blanks. */
  lemma {:induction false} FragmentIndented(b: Block)
    ensures var r := RenderSlideContent(b); |r| > 12 && r[..12] == Spaces(12) && r[12] == '<'
  {
    var content := Strip(b.content);
    var k := KindOf(b.slideType);
    var r := RenderSlideContent(b);
    OpenTagShape(k);
    if k == Kind.Code {
      IndentedShape(CodeOpen + EscapeHtml(Strip(content)) + CodeClose);
    } else if content == [] {
      IndentedShape(OpenTag(k) + Placeholder(k) + CloseTag(k));
    } else if k == Kind.Table {
      TableIndented(content);
    } else {
      IndentedShape(OpenTag(k) + Processed(k, content) + CloseTag(k));
    }
  }

  lemma {:induction false} TableIndented(content: string)
    ensures var r := TableHtml(content); |r| > 12 && r[..12] == Spaces(12) && r[12] == '<'
  {
    var parts := TableParts(Grid(TableLines(content)));
    JoinFirst(parts, "\n");
    var first := parts[0];
    assert first == Container || first == EmptyTable;
    assert first[..12] == Spaces(12) && first[12] == '<';
    PrefixShape(first, TableHtml(content));
  }

  lemma {:induction false} PrefixShape(first: string, r: string)
    requires first <= r && |first| > 12 && first[..12] == Spaces(12) && first[12] == '<'
    ensures |r| > 12 && r[..12] == Spaces(12) && r[12] == '<'
  {
    assert r[..12] == first[..12];
  }

  /** A table slide with content always renders a real table: stripped
      content that is not empty has a non-blank line, so the fallback of
      `render_table` is never reached from here. */
  lemma {:induction false} TableSlideHasRows(b: Block)
    requires KindOf(b.slideType) == Kind.Table && Strip(b.content) != []
    ensures RenderSlideContent(b) == TableHtml(Strip(b.content))
    ensures TableLines(Strip(b.content)) != []
  {
    var content := Strip(b.content);
    StripShape(content);
    TableLinesEmpty(content);
  }

  /** A code slide shows its text escaped, so none of it can be read as
      markup, and unescaping gives the text back. */
  lemma {:induction false} CodeIsEscaped(b: Block)
    requires KindOf(b.slideType) == Kind.Code
    ensures var code := Strip(b.content);
      RenderSlideContent(b) == Indented(CodeOpen + EscapeHtml(code) + CodeClose)
      && '<' !in EscapeHtml(code)
      && Unescape(EscapeHtml(code)) == code
  {
    var code := Strip(b.content);
    StripIdempotent(b.content);
    EscapeHtmlSafe(code);
    EscapeRoundTrip(code);
  }

  /** Every kind but code and table renders on a single line: the text
      passes through `process_text`, which turns newlines into `<br>`. */
  lemma {:induction false} TextKindsSingleLine(b: Block)
    requires KindOf(b.slideType) != Kind.Code && KindOf(b.slideType) != Kind.Table
    ensures '\n' !in RenderSlideContent(b)
  {
    var content := Strip(b.content);
    var k := KindOf(b.slideType);
    PiecesOneLine(k);
    if content == [] {
      assert RenderSlideContent(b) == Indented(OpenTag(k) + Placeholder(k) + CloseTag(k));
      IndentedOneLine(OpenTag(k), Placeholder(k), CloseTag(k));
    } else {
      TextKindRender(b);
      ProcessTextNoNewline(content);
      if k == Kind.Body {
        SpanOneLine();
        ItalicizeKeepsOut(ProcessText(content), false, '\n');
      }
      IndentedOneLine(OpenTag(k), Processed(k, content), CloseTag(k));
    }
  }

  lemma {:induction false} IndentedOneLine(open: string, text: string, close: string)
    requires '\n' !in open && '\n' !in text && '\n' !in close
    ensures '\n' !in Indented(open + text + close)
  {
    assert '\n' !in Spaces(12);
  }

  /** A heading whose text has no markup shows the text itself. */
  lemma {:induction false} PlainTitle(b: Block)
    requires KindOf(b.slideType) == Kind.Title
    requires Strip(b.content) != [] && '{' !in b.content && '[' !in b.content && '\n' !in b.content
    ensures RenderSlideContent(b) == Indented("<h1>" + Strip(b.content) + "</h1>")
  {
    var content := Strip(b.content);
    StripKeepsOut(b.content, '{');
    StripKeepsOut(b.content, '[');
    StripKeepsOut(b.content, '\n');
    StripShape(b.content);
    TextKindRender(b);
    ProcessTextPlain(content);
    assert Processed(Kind.Title, content) == content;
  }

  /** With nothing to show, each kind shows its fixed placeholder; a code
      slide shows an empty code block. */
  lemma {:induction false} EmptyContentPlaceholders(b: Block)
    requires Strip(b.content) == []
    ensures var r := RenderSlideContent(b); var k := KindOf(b.slideType);
      (k == Kind.Title ==> r == Indented("<h1>Заголовок</h1>"))
      && (k == Kind.Subtitle ==> r == Indented("<h2>Підзаголовок</h2>"))
      && (k == Kind.Body ==> r == Indented("<div></div>"))
      && (k == Kind.Definition ==> r == Indented("<div class='definition'></div>"))
      && (k == Kind.Code ==> r == Indented("<pre><code></code></pre>"))
      && (k == Kind.Unknown ==> r == Indented("<div></div>"))
  {
    var k := KindOf(b.slideType);
    if k == Kind.Code {
      assert EscapeHtml([]) == [];
    } else if k == Kind.Title || k == Kind.Subtitle {
      HeadingPlaceholders(k);
    } else {
      PlainPlaceholders(k);
    }
  }

  lemma {:induction false} HeadingPlaceholders(k: Kind)
    ensures var e := OpenTag(k) + Placeholder(k) + CloseTag(k);
      (k == Kind.Title ==> e == "<h1>Заголовок</h1>")
      && (k == Kind.Subtitle ==> e == "<h2>Підзаголовок</h2>")
  {
  }

  lemma {:induction false} PlainPlaceholders(k: Kind)
    ensures var e := OpenTag(k) + Placeholder(k) + CloseTag(k);
      (k == Kind.Body ==> e == "<div></div>")
      && (k == Kind.Definition ==> e == "<div class='definition'></div>")
      && (k == Kind.Unknown ==> e == "<div></div>")
  {
  }

  /** An empty task slide shows the caption "task". */
  lemma {:induction false} EmptyTaskSlide(b: Block)
    requires KindOf(b.slideType) == Kind.Task && Strip(b.content) == []
    ensures RenderSlideContent(b) == Indented("<div class='task'>Задача</div>")
  {
    assert OpenTag(Kind.Task) + Placeholder(Kind.Task) + CloseTag(Kind.Task) == "<div class='task'>Задача</div>";
  }

  /** An empty table slide shows the caption "empty table" in its container. */
  lemma {:induction false} EmptyTableSlide(b: Block)
    requires KindOf(b.slideType) == Kind.Table && Strip(b.content) == []
    ensures RenderSlideContent(b) == Indented("<div class='table-container'>" + "<p>Порожня таблиця</p>" + "</div>")
  {
  }

  /** A slide of an unknown type shows its text after `process_text` in a
      plain `div`, without the Latin italics of `@3`. */
  lemma {:induction false} UnknownKindFallback(b: Block)
    requires KindOf(b.slideType) == Kind.Unknown && Strip(b.content) != []
    ensures RenderSlideContent(b) == Indented("<div>" + ProcessText(Strip(b.content)) + "</div>")
  {
    var k := KindOf(b.slideType);
    TextKindRender(b);
    assert OpenTag(k) == "<div>" && CloseTag(k) == "</div>";
    assert Processed(k, Strip(b.content)) == ProcessText(Strip(b.content));
  }

  /** The branch that every text kind with content takes. */
  lemma {:induction false} TextKindRender(b: Block)
    requires KindOf(b.slideType) != Kind.Code && KindOf(b.slideType) != Kind.Table && Strip(b.content) != []
    ensures var k := KindOf(b.slideType);
      RenderSlideContent(b) == Indented(OpenTag(k) + Processed(k, Strip(b.content)) + CloseTag(k))
  {
  }
}
