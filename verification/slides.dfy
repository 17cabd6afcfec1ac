/**
 * The slide record of tebook/slide.py. The dataclass stores the three
 * constructor arguments and then, in `__post_init__`, overwrites `content`
 * and `raw_content` with their stripped forms; `Slide` below does the same.
 * `Block` is the value a slide holds once constructed, which is all the
 * renderer ever reads.
 */
module Slides {
  import opened Text

  datatype Block = Block(slideType: string, content: string, rawContent: string)

  /** A block as a constructed `Slide` leaves it: both texts stripped. */
  predicate Normalized(b: Block)
  {
    IsStripped(b.content) && IsStripped(b.rawContent)
  }

  /** The seven slide kinds that the markers `@1` .. `@7` name, and every
      other `slide_type` string, which the renderer treats as unknown. */
  datatype Kind = Title | Subtitle | Body | Definition | Code | Task | Table | Unknown

  function KindOf(slideType: string): (k: Kind)
    ensures k != Unknown <==> |slideType| == 2 && slideType[0] == '@' && '1' <= slideType[1] <= '7'
  {
    if slideType == "@1" then Title
    else if slideType == "@2" then Subtitle
    else if slideType == "@3" then Body
    else if slideType == "@4" then Definition
    else if slideType == "@5" then Code
    else if slideType == "@6" then Task
    else if slideType == "@7" then Table
    else Unknown
  }

  class Slide {
    var slideType: string
    var content: string
    var rawContent: string

    /** The dataclass constructor followed by `__post_init__`. */
    constructor (slideType: string, content: string, rawContent: string)
      ensures this.slideType == slideType
      ensures this.content == Strip(content) && this.rawContent == Strip(rawContent)
      ensures Normalized(View())
    {
      this.slideType := slideType;
      this.content := content;
      this.rawContent := rawContent;
      new;
      PostInit();
    }

    /** `__post_init__`: strips both texts in place; the type is kept. */
    method PostInit()
      modifies this
      ensures slideType == old(slideType)
      ensures content == Strip(old(content)) && rawContent == Strip(old(rawContent))
    {
      content := Strip(content);
      rawContent := Strip(rawContent);
    }

    function View(): Block
      reads this
    {
      Block(slideType, content, rawContent)
    }
  }

  /** The values of a list of slides, in order. */
  function Views(slides: seq<Slide>): (bs: seq<Block>)
    reads slides
    ensures |bs| == |slides|
    ensures forall i :: 0 <= i < |slides| ==> bs[i] == slides[i].View()
  {
    seq(|slides|, i requires 0 <= i < |slides| reads slides => slides[i].View())
  }

  /** Building a slide from the fields of a constructed slide stores the same
      fields again: construction is idempotent. */
  method Rebuild(s: Slide) returns (t: Slide)
    requires Normalized(s.View())
    ensures t.View() == s.View()
    ensures Normalized(t.View())
    ensures fresh(t)
  {
    StripOfStripped(s.content);
    StripOfStripped(s.rawContent);
    t := new Slide(s.slideType, s.content, s.rawContent);
  }
}
