/**
 * What the three HTML layouts of tebook/renderer.py have in common. Every
 * layout is a list of lines, later joined with newlines: a head, the tutor
 * styles when the document type is `html-tut`, the lines that open the
 * body, one section of three lines per slide (an opening `div` that carries
 * the slide's index, the fragment of `render_slide_content`, a closing
 * `div`) and the lines that close the page. The fixed lines themselves are
 * parameters here; Render fills them in for each layout.
 */
module Layouts {
  import opened Text
  import opened Slides
  import opened Fragment

  /** The slides layout wraps each slide in a navigable `slide` div; the two
      document layouts wrap it in a `slide-block` div. */
  datatype Wrapper = SlideWrapper | BlockWrapper

  /** `"slide"`, followed by `" active"` for the first slide only. */
  function SlideClass(i: nat): string
  {
    "slide" + (if i == 0 then " active" else "")
  }

  /** The text up to the slide's number in its opening line. */
  function IdPrefix(w: Wrapper, i: nat): string
  {
    match w
    case SlideWrapper => Spaces(8) + "<div class='" + SlideClass(i) + "' id='slide-"
    case BlockWrapper => Spaces(8) + "<div class='slide-block' id='block-"
  }

  const IdSuffix := "'>"

  /** The line that opens the wrapper of slide `i`. */
  function OpenLine(w: Wrapper, i: nat): string
  {
    IdPrefix(w, i) + NatToString(i) + IdSuffix
  }

  /** The line that closes every wrapper. */
  function CloseLine(): string
  {
    Spaces(8) + "</div>"
  }

  /** The fragment `render_slide_content` gives for each block, in order. */
  function Fragments(blocks: seq<Block>): (fs: seq<string>)
    ensures |fs| == |blocks|
  {
    seq(|blocks|, i requires 0 <= i < |blocks| => RenderSlideContent(blocks[i]))
  }

  /** The first `n` fragments, each wrapped in its opening and closing line. */
  function Section(w: Wrapper, fragments: seq<string>, n: nat): (lines: seq<string>)
    requires n <= |fragments|
    ensures |lines| == 3 * n
  {
    if n == 0 then []
    else Section(w, fragments, n - 1) + [OpenLine(w, n - 1), fragments[n - 1], CloseLine()]
  }

  const CounterPrefix := Spaces(4) + "<div class='slide-counter' id='counter'>1 / "
  const CounterSuffix := "</div>"

  /** The counter under the slides: the first slide of all of them. */
  function CounterLine(n: nat): string
  {
    CounterPrefix + NatToString(n) + CounterSuffix
  }

  /** The head, followed by the tutor styles for the `html-tut` format. */
  function WithTutor(head: seq<string>, tutorStyles: seq<string>, docType: string): seq<string>
  {
    if docType == "html-tut" then head + tutorStyles else head
  }

  /** The lines of a layout before its section. */
  function Top(head: seq<string>, tutorStyles: seq<string>, bodyOpen: seq<string>, docType: string): seq<string>
  {
    WithTutor(head, tutorStyles, docType) + bodyOpen
  }

  /** A whole layout. */
  function Page(head: seq<string>, tutorStyles: seq<string>, bodyOpen: seq<string>,
                section: seq<string>, bottom: seq<string>, docType: string): seq<string>
  {
    Top(head, tutorStyles, bodyOpen, docType) + section + bottom
  }

  /** The loop that every layout runs over the slides. */
  method AppendSection(parts: seq<string>, w: Wrapper, slides: seq<Slide>) returns (longer: seq<string>)
    ensures longer == parts + Section(w, Fragments(Views(slides)), |slides|)
  {
    longer := parts;
    for i := 0 to |slides|
      invariant longer == parts + Section(w, Fragments(Views(slides)), i)
    {
      longer := AppendSlide(parts, w, slides, i, longer);
    }
  }

  /** The body of that loop: the opening line of slide `i`, its fragment and
      the closing line. */
  method AppendSlide(parts: seq<string>, w: Wrapper, slides: seq<Slide>, i: nat, before: seq<string>)
    returns (after: seq<string>)
    requires i < |slides| && before == parts + Section(w, Fragments(Views(slides)), i)
    ensures after == parts + Section(w, Fragments(Views(slides)), i + 1)
  {
    var fragment := RenderSlideContent(slides[i].View());
    SectionStep(parts, w, slides, i, before, fragment);
    after := before + [OpenLine(w, i), fragment, CloseLine()];
  }

  /** One more slide adds its three lines to the section. */
  lemma {:induction false} SectionStep(parts: seq<string>, w: Wrapper, slides: seq<Slide>, i: nat,
                                       before: seq<string>, fragment: string)
    requires i < |slides| && before == parts + Section(w, Fragments(Views(slides)), i)
    requires fragment == RenderSlideContent(slides[i].View())
    ensures before + [OpenLine(w, i), fragment, CloseLine()] == parts + Section(w, Fragments(Views(slides)), i + 1)
  {
    var fragments := Fragments(Views(slides));
    assert fragments[i] == fragment;
    AppendAssoc(parts, Section(w, fragments, i), [OpenLine(w, i), fragment, CloseLine()]);
  }

  // ---------------------------------------------------------------------
  // Properties of the layouts

  /** A section holds three lines per slide: the opening line with the
      slide's index, the slide's fragment and the closing line. */
  lemma {:induction false} SectionShape(w: Wrapper, fragments: seq<string>, n: nat, i: nat)
    requires i < n <= |fragments|
    ensures Section(w, fragments, n)[3 * i] == OpenLine(w, i)
    ensures Section(w, fragments, n)[3 * i + 1] == fragments[i]
    ensures Section(w, fragments, n)[3 * i + 2] == CloseLine()
  {
    if i < n - 1 {
      SectionShape(w, fragments, n - 1, i);
    }
  }

  /** The lines of slide `i` sit `3 * i` lines after the top of the page. */
  lemma {:induction false} SectionInPage(head: seq<string>, tutorStyles: seq<string>, bodyOpen: seq<string>,
                      w: Wrapper, fragments: seq<string>, bottom: seq<string>, docType: string, i: nat)
    requires i < |fragments|
    ensures var start := |Top(head, tutorStyles, bodyOpen, docType)|;
      var page := Page(head, tutorStyles, bodyOpen, Section(w, fragments, |fragments|), bottom, docType);
      start + 3 * i + 2 < |page|
      && page[start + 3 * i] == OpenLine(w, i)
      && page[start + 3 * i + 1] == fragments[i]
      && page[start + 3 * i + 2] == CloseLine()
  {
    var top := Top(head, tutorStyles, bodyOpen, docType);
    var section := Section(w, fragments, |fragments|);
    SectionShape(w, fragments, |fragments|, i);
    PageIndex(top, section, bottom, 3 * i);
    PageIndex(top, section, bottom, 3 * i + 1);
    PageIndex(top, section, bottom, 3 * i + 2);
  }

  lemma {:induction false} PageIndex(top: seq<string>, section: seq<string>, bottom: seq<string>, j: nat)
    requires j < |section|
    ensures |top| + j < |top + section + bottom| && (top + section + bottom)[|top| + j] == section[j]
  {
  }

  /** The tutor styles are added for `html-tut` only, right after the head:
      every other document type gives the page without them, and the tutor
      page is that page with the styles inserted after the head. */
  lemma {:induction false} TutorStylesOnlyForTutor(head: seq<string>, tutorStyles: seq<string>, bodyOpen: seq<string>,
                                section: seq<string>, bottom: seq<string>, docType: string)
    ensures docType != "html-tut" ==>
      Page(head, tutorStyles, bodyOpen, section, bottom, docType) == head + bodyOpen + section + bottom
    ensures Page(head, tutorStyles, bodyOpen, section, bottom, "html-tut") ==
      head + tutorStyles + Page(head, tutorStyles, bodyOpen, section, bottom, "html-stu")[|head|..]
  {
    var rest := bodyOpen + section + bottom;
    assert Page(head, tutorStyles, bodyOpen, section, bottom, "html-stu") == head + rest;
    assert (head + rest)[|head|..] == rest;
  }

  /** Different slides get different opening lines, hence different ids. */
  lemma {:induction false} OpenLineInjective(w: Wrapper, i: nat, j: nat)
    requires i != j
    ensures OpenLine(w, i) != OpenLine(w, j)
  {
    if IdPrefix(w, i) == IdPrefix(w, j) {
      var p := IdPrefix(w, i);
      NumberBetween(p, NatToString(i), IdSuffix);
      NumberBetween(p, NatToString(j), IdSuffix);
      NatToStringInjective(i, j);
    } else {
      assert w == SlideWrapper && (i == 0 || j == 0);
      SlideLineAt(i);
      SlideLineAt(j);
    }
  }

  /** The text between a known prefix and a known suffix. */
  lemma {:induction false} NumberBetween(p: string, x: string, s: string)
    ensures var line := p + x + s;
      |p| + |s| <= |line| && line[|p|..|line| - |s|] == x
  {
  }

  /** Only the first slide is `slide active`; the class ends the opening
      line's prefix, so character 25, just after the word `slide`, is a
      space for the first slide and a quote for every other one. */
  lemma {:induction false} SlideLineAt(i: nat)
    ensures SlideClass(i) == "slide active" <==> i == 0
    ensures SlideClass(i) == "slide" <==> i != 0
    ensures IdPrefix(SlideWrapper, i) == Spaces(8) + "<div class='" + SlideClass(i) + "' id='slide-"
    ensures OpenLine(SlideWrapper, i) == IdPrefix(SlideWrapper, i) + NatToString(i) + IdSuffix
    ensures |OpenLine(SlideWrapper, i)| > 25
    ensures OpenLine(SlideWrapper, i)[25] == (if i == 0 then ' ' else '\'')
  {
    var p := Spaces(8) + "<div class='" + SlideClass(i) + "' id='slide-";
    assert OpenLine(SlideWrapper, i) == p + (NatToString(i) + IdSuffix);
    assert p[25] == (if i == 0 then ' ' else '\'');
  }

  /** The counter line reads back the number of slides. */
  lemma {:induction false} CounterReadsCount(n: nat)
    ensures var line := CounterLine(n);
      |CounterPrefix| + |CounterSuffix| <= |line|
      && DecimalValue(line[|CounterPrefix|..|line| - |CounterSuffix|]) == n
  {
    NumberBetween(CounterPrefix, NatToString(n), CounterSuffix);
    NatToStringRoundTrip(n);
  }
}
