/**
 * The three HTML layouts of tebook/renderer.py with their fixed lines, and
 * `render_html`, which picks a layout or the Markdown output.
 */
module Render {
  import opened Text
  import opened Slides
  import opened Fragment
  import opened Pages
  import opened Markdown
  import opened Layouts

  /** The lines of `render_html_slides` after the slides: navigation, the
      slide counter, the script. */
  function SlidesBottom(n: nat): seq<string>
  {
    SlidesNavigation() + [CounterLine(n)] + SlidesScript()
  }

  /** The lines of `render_html_slides`. */
  function SlidesPage(blocks: seq<Block>, docType: string): seq<string>
  {
    Page(SlidesHead(), SlidesTutorStyles(), SlidesBodyOpen(),
      Section(SlideWrapper, Fragments(blocks), |blocks|), SlidesBottom(|blocks|), docType)
  }

  /** The lines of `render_html_document`. */
  function DocumentPage(blocks: seq<Block>, docType: string): seq<string>
  {
    Page(DocumentHead(), DocumentTutorStyles(), DocumentBodyOpen(),
      Section(BlockWrapper, Fragments(blocks), |blocks|), DocumentScript(), docType)
  }

  /** The lines of `render_html_full_document`. */
  function FullDocumentPage(blocks: seq<Block>, docType: string): seq<string>
  {
    Page(FullHead(), FullTutorStyles(), FullBodyOpen(),
      Section(BlockWrapper, Fragments(blocks), |blocks|), FullTail(), docType)
  }

  /** `render_html_slides`; `language` does not change the page. */
  method RenderHtmlSlides(slides: seq<Slide>, language: string := "python", docType: string := "html-stu")
    returns (html: string)
    ensures html == Join(SlidesPage(Views(slides), docType), "\n")
  {
    var htmlParts := SlidesHead();
    if docType == "html-tut" {
      htmlParts := htmlParts + SlidesTutorStyles();
    }
    htmlParts := htmlParts + SlidesBodyOpen();
    htmlParts := AppendSection(htmlParts, SlideWrapper, slides);
    htmlParts := htmlParts + SlidesBottom(|slides|);
    html := Join(htmlParts, "\n");
  }

  /** `render_html_document`; `language` does not change the page. */
  method RenderHtmlDocument(slides: seq<Slide>, language: string := "python", docType: string := "html-stu")
    returns (html: string)
    ensures html == Join(DocumentPage(Views(slides), docType), "\n")
  {
    var htmlParts := DocumentHead();
    if docType == "html-tut" {
      htmlParts := htmlParts + DocumentTutorStyles();
    }
    htmlParts := htmlParts + DocumentBodyOpen();
    htmlParts := AppendSection(htmlParts, BlockWrapper, slides);
    htmlParts := htmlParts + DocumentScript();
    html := Join(htmlParts, "\n");
  }

  /** `render_html_full_document`; `language` does not change the page. */
  method RenderHtmlFullDocument(slides: seq<Slide>, language: string := "python", docType: string := "html-stu")
    returns (html: string)
    ensures html == Join(FullDocumentPage(Views(slides), docType), "\n")
  {
    var htmlParts := FullHead();
    if docType == "html-tut" {
      htmlParts := htmlParts + FullTutorStyles();
    }
    htmlParts := htmlParts + FullBodyOpen();
    htmlParts := AppendSection(htmlParts, BlockWrapper, slides);
    htmlParts := htmlParts + FullTail();
    html := Join(htmlParts, "\n");
  }

  /** `render_html`: Markdown first, whatever the view mode; then the two
      document modes; every other view mode gives slides. */
  method RenderHtml(slides: seq<Slide>, language: string := "python", docType: string := "html-stu",
                    viewMode: string := "slides")
    returns (out: string)
    ensures docType == "md" ==> out == MarkdownOf(Views(slides))
    ensures docType != "md" && viewMode == "full-document" ==>
      out == Join(FullDocumentPage(Views(slides), docType), "\n")
    ensures docType != "md" && viewMode == "document" ==>
      out == Join(DocumentPage(Views(slides), docType), "\n")
    ensures docType != "md" && viewMode != "full-document" && viewMode != "document" ==>
      out == Join(SlidesPage(Views(slides), docType), "\n")
  {
    if docType == "md" {
      out := RenderMarkdown(slides);
      return;
    }
    if viewMode == "full-document" {
      out := RenderHtmlFullDocument(slides, language, docType);
      return;
    }
    if viewMode == "document" {
      out := RenderHtmlDocument(slides, language, docType);
      return;
    }
    out := RenderHtmlSlides(slides, language, docType);
  }

  // ---------------------------------------------------------------------
  // Properties of the three layouts

  /** In the slides page, each slide's fragment follows its opening line,
      `3 * i` lines after the fixed top. */
  lemma {:induction false} SlidesPageHasFragments(blocks: seq<Block>, docType: string, i: nat)
    requires i < |blocks|
    ensures var start := |Top(SlidesHead(), SlidesTutorStyles(), SlidesBodyOpen(), docType)|;
      var page := SlidesPage(blocks, docType);
      start + 3 * i + 2 < |page|
      && page[start + 3 * i] == OpenLine(SlideWrapper, i)
      && page[start + 3 * i + 1] == RenderSlideContent(blocks[i])
      && page[start + 3 * i + 2] == CloseLine()
  {
    SectionInPage(SlidesHead(), SlidesTutorStyles(), SlidesBodyOpen(),
      SlideWrapper, Fragments(blocks), SlidesBottom(|blocks|), docType, i);
  }

  /** The two document layouts show each block's fragment after its opening
      line, `3 * i` lines after their fixed top. */
  lemma {:induction false} DocumentPagesHaveFragments(blocks: seq<Block>, docType: string, i: nat)
    requires i < |blocks|
    ensures var start := |Top(DocumentHead(), DocumentTutorStyles(), DocumentBodyOpen(), docType)|;
      var page := DocumentPage(blocks, docType);
      start + 3 * i + 2 < |page|
      && page[start + 3 * i] == OpenLine(BlockWrapper, i)
      && page[start + 3 * i + 1] == RenderSlideContent(blocks[i])
    ensures var start := |Top(FullHead(), FullTutorStyles(), FullBodyOpen(), docType)|;
      var page := FullDocumentPage(blocks, docType);
      start + 3 * i + 2 < |page|
      && page[start + 3 * i] == OpenLine(BlockWrapper, i)
      && page[start + 3 * i + 1] == RenderSlideContent(blocks[i])
  {
    SectionInPage(DocumentHead(), DocumentTutorStyles(), DocumentBodyOpen(),
      BlockWrapper, Fragments(blocks), DocumentScript(), docType, i);
    SectionInPage(FullHead(), FullTutorStyles(), FullBodyOpen(),
      BlockWrapper, Fragments(blocks), FullTail(), docType, i);
  }

  /** The slides counter shows the number of slides. */
  lemma {:induction false} SlidesCounterCounts(blocks: seq<Block>, docType: string)
    ensures var start := |Top(SlidesHead(), SlidesTutorStyles(), SlidesBodyOpen(), docType)|;
      var page := SlidesPage(blocks, docType);
      var line := page[start + 3 * |blocks| + |SlidesNavigation()|];
      |CounterPrefix| + |CounterSuffix| <= |line|
      && DecimalValue(line[|CounterPrefix|..|line| - |CounterSuffix|]) == |blocks|
  {
    CounterReadsCount(|blocks|);
  }
}
