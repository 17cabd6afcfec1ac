/**
 * `render_markdown` of tebook/renderer.py: each slide of a known type
 * becomes its content framed by the markup of its kind, and every slide,
 * known or not, is followed by a horizontal rule. The content is used as the
 * slide holds it: it is neither escaped nor processed.
 */
module Markdown {
  import opened Text
  import opened Slides

  /** What every slide is followed by. */
  const Separator := "\n---\n\n"

  /** The markup before the content of each kind. */
  function MdPrefix(k: Kind): string
  {
    match k
    case Title => "# "
    case Subtitle => "## "
    case Definition => "```\n"
    case Code => "```"
    case Task => "> **Задача:** "
    case _ => ""
  }

  /** The markup after the content of each kind. */
  function MdSuffix(k: Kind): string
  {
    match k
    case Definition => "\n```\n"
    case Code => "\n```\n"
    case _ => "\n"
  }

  /** The text a slide contributes before its separator; a slide of an
      unknown type contributes nothing. */
  function Entry(b: Block): string
  {
    var k := KindOf(b.slideType);
    if k == Unknown then "" else MdPrefix(k) + b.content + MdSuffix(k)
  }

  /** What each block contributes before its separator, in order. */
  function Entries(blocks: seq<Block>): (es: seq<string>)
    ensures |es| == |blocks|
  {
    seq(|blocks|, i requires 0 <= i < |blocks| => Entry(blocks[i]))
  }

  /** Entries joined, each followed by the separator, built entry after entry. */
  function Document(entries: seq<string>): string
  {
    if entries == [] then ""
    else Document(entries[..|entries| - 1]) + entries[|entries| - 1] + Separator
  }

  /** The Markdown document of the blocks. */
  function MarkdownOf(blocks: seq<Block>): string
  {
    Document(Entries(blocks))
  }

  /** `render_markdown` */
  method RenderMarkdown(slides: seq<Slide>) returns (md: string)
    ensures md == MarkdownOf(Views(slides))
  {
    ghost var entries := Entries(Views(slides));
    var mdParts: seq<string> := [];
    for i := 0 to |slides|
      invariant Concat(mdParts) == Document(entries[..i])
    {
      var slide := slides[i];
      ghost var before := mdParts;
      ghost var e := entries[i];
      EntryOfSlide(slide, e);
      if slide.slideType == "@1" {
        mdParts := mdParts + ["# " + slide.content + "\n"];
      } else if slide.slideType == "@2" {
        mdParts := mdParts + ["## " + slide.content + "\n"];
      } else if slide.slideType == "@3" {
        mdParts := mdParts + [slide.content + "\n"];
      } else if slide.slideType == "@4" {
        mdParts := mdParts + ["```\n" + slide.content + "\n```\n"];
      } else if slide.slideType == "@5" {
        mdParts := mdParts + ["```" + slide.content + "\n```\n"];
      } else if slide.slideType == "@6" {
        mdParts := mdParts + ["> **Задача:** " + slide.content + "\n"];
      } else if slide.slideType == "@7" {
        mdParts := mdParts + [slide.content + "\n"];
      }
      if mdParts != before {
        ConcatOne(before, e);
      }
      ConcatOne(mdParts, Separator);
      mdParts := mdParts + [Separator];
      assert entries[..i + 1][..i] == entries[..i];
    }
    assert entries[..|slides|] == entries;
    md := Concat(mdParts);
  }

  /** The branch of the loop body that a slide takes appends its entry. */
  lemma {:induction false} EntryOfSlide(slide: Slide, e: string)
    requires e == Entry(slide.View())
    ensures slide.slideType == "@1" ==> e == "# " + slide.content + "\n"
    ensures slide.slideType == "@2" ==> e == "## " + slide.content + "\n"
    ensures slide.slideType == "@3" ==> e == slide.content + "\n"
    ensures slide.slideType == "@4" ==> e == "```\n" + slide.content + "\n```\n"
    ensures slide.slideType == "@5" ==> e == "```" + slide.content + "\n```\n"
    ensures slide.slideType == "@6" ==> e == "> **Задача:** " + slide.content + "\n"
    ensures slide.slideType == "@7" ==> e == slide.content + "\n"
    ensures KindOf(slide.slideType) == Unknown ==> e == ""
  {
  }

  lemma {:induction false} ConcatOne(parts: seq<string>, x: string)
    ensures Concat(parts + [x]) == Concat(parts) + x
  {
    ConcatAppend(parts, [x]);
    assert Concat([x]) == x + Concat([]);
  }

  // ---------------------------------------------------------------------

  lemma {:induction false} DocumentAppend(a: seq<string>, b: seq<string>)
    ensures Document(a + b) == Document(a) + Document(b)
    decreases |b|
  {
    if b == [] {
      assert a + b == a;
    } else {
      var c := a + b;
      var init := b[..|b| - 1];
      var last := b[|b| - 1] + Separator;
      assert c[..|c| - 1] == a + init;
      assert c[|c| - 1] == b[|b| - 1];
      DocumentAppend(a, init);
      assert Document(c) == (Document(a) + Document(init)) + last;
      assert Document(b) == Document(init) + last;
      AppendAssoc(Document(a), Document(init), last);
    }
  }

  /** A document made of two runs of slides is the two documents one after
      the other. */
  lemma {:induction false} MarkdownAppend(a: seq<Block>, b: seq<Block>)
    ensures MarkdownOf(a + b) == MarkdownOf(a) + MarkdownOf(b)
  {
    assert Entries(a + b) == Entries(a) + Entries(b);
    DocumentAppend(Entries(a), Entries(b));
  }

  /** The document is the entries, each followed by its separator, in order. */
  lemma {:induction false} DocumentIsConcat(entries: seq<string>)
    ensures Document(entries) ==
      Concat(seq(|entries|, i requires 0 <= i < |entries| => entries[i] + Separator))
  {
    if entries != [] {
      var n := |entries| - 1;
      var all := seq(|entries|, i requires 0 <= i < |entries| => entries[i] + Separator);
      var init := seq(n, i requires 0 <= i < n => entries[..n][i] + Separator);
      DocumentIsConcat(entries[..n]);
      assert all == init + [entries[n] + Separator];
      ConcatAppend(init, [entries[n] + Separator]);
    }
  }

  lemma {:induction false} MarkdownIsConcat(blocks: seq<Block>)
    ensures MarkdownOf(blocks) ==
      Concat(seq(|blocks|, i requires 0 <= i < |blocks| => Entry(blocks[i]) + Separator))
  {
    DocumentIsConcat(Entries(blocks));
    assert seq(|blocks|, i requires 0 <= i < |blocks| => Entry(blocks[i]) + Separator)
      == seq(|blocks|, i requires 0 <= i < |blocks| => Entries(blocks)[i] + Separator);
  }

  /** Every slide of a known type keeps its content verbatim between the
      markup of its kind. */
  lemma {:induction false} EntryKeepsContent(b: Block)
    requires KindOf(b.slideType) != Unknown
    ensures var e := Entry(b); var k := KindOf(b.slideType);
      |MdPrefix(k)| + |b.content| + |MdSuffix(k)| == |e|
      && e[|MdPrefix(k)|..|e| - |MdSuffix(k)|] == b.content
  {
  }

  /** A slide of an unknown type leaves only its separator. */
  lemma {:induction false} UnknownLeavesSeparator(blocks: seq<Block>, b: Block)
    requires KindOf(b.slideType) == Unknown
    ensures MarkdownOf(blocks + [b]) == MarkdownOf(blocks) + Separator
  {
    MarkdownAppend(blocks, [b]);
    assert Entries([b]) == [""];
    assert Document([""]) == Document([]) + "" + Separator;
  }
}
