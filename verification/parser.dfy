/**
 * The draft parser of tebook/parser.py: `parse_draft` splits the draft into
 * lines, skips comment lines, opens a slide at every marker line and
 * collects the other lines into the open slide.
 *
 * `ParseDraft` is the loop itself. It is specified twice: by `ParseLines`,
 * the same line-by-line state machine written as a fold (`Step`, `Run`),
 * and by `Grouped`, an independent description of the result (drop the
 * comment lines, drop what precedes the first marker, cut the rest into
 * marker-headed groups). `ParseMatchesGrouping` proves the two agree; the
 * remaining lemmas are the promised properties of the parse.
 */
module Parser {
  import opened Text
  import opened Slides

  /** `line.strip().startswith('@@')` */
  predicate IsComment(line: string)
  {
    StartsWith(Strip(line), "@@")
  }

  /** What `re.match(r'^@([1-7])(?:\s+(.*))?$', line)` returns: the digit
      (group 1) and, when the optional part took part in the match, the text
      after the whitespace run (group 2). Lines come from a split on '\n',
      so `.` and `$` see no newline. */
  datatype MarkerMatch = NoMatch | Match(digit: char, rest: Option<string>)

  function MatchMarker(line: string): (m: MarkerMatch)
    ensures m.Match? ==> |line| >= 2 && m.digit == line[1]
  {
    if |line| < 2 || line[0] != '@' || !('1' <= line[1] <= '7') then NoMatch
    else if |line| == 2 then Match(line[1], None)
    else
      var ws := LeadCount(line[2..]);
      if ws == 0 then NoMatch else Match(line[1], Some(line[2 + ws..]))
  }

  predicate IsMarker(line: string)
  {
    MatchMarker(line).Match?
  }

  /** A marker is exactly '@', one digit from 1 to 7, and then either the end
      of the line or at least one whitespace character. */
  lemma {:induction false} MarkerShape(line: string)
    ensures IsMarker(line) <==>
      |line| >= 2 && line[0] == '@' && '1' <= line[1] <= '7' && (|line| == 2 || IsSpace(line[2]))
  {
    if |line| > 2 && line[0] == '@' && '1' <= line[1] <= '7' {
      assert line[2..][0] == line[2];
    }
  }

  lemma {:induction false} NotMarkers()
    ensures !IsMarker("@8") && !IsMarker("@1x") && !IsMarker("@12") && !IsMarker(" @1")
    ensures IsMarker("@1") && IsMarker("@7 x")
  {
    assert !IsSpace('x') && !IsSpace('2') && IsSpace(' ');
    MarkerShape("@1x");
    MarkerShape("@12");
    MarkerShape("@7 x");
  }

  /** A marker line never counts as a comment, so the comment test that runs
      first cannot hide a marker. */
  lemma {:induction false} MarkerIsNotComment(line: string)
    requires IsMarker(line)
    ensures !IsComment(line)
  {
    assert LeadCount(line) == 0;
    var n := TrailCount(line);
    TrailCountSpaces(line);
    assert n <= |line| - 2 by { assert !IsSpace(line[1]); }
    assert Strip(line)[..2] == line[..2];
  }

  /** The text that seeds a new slide: group 2, or "" when it is missing or
      empty, then stripped. It is the stripped text after the digit. */
  function Remaining(line: string): (r: string)
    requires IsMarker(line)
    ensures r == Strip(line[2..])
  {
    var m := MatchMarker(line);
    var g := if m.rest.Some? && m.rest.value != "" then m.rest.value else "";
    StripAfterLead(line[2..]);
    Strip(g)
  }

  /** What a marker line puts into the content buffer and the raw buffer:
      the stripped marker text and the whole line, or nothing for a bare marker. */
  function Seed(line: string): seq<string>
    requires IsMarker(line)
  {
    if Remaining(line) != "" then [Remaining(line)] else []
  }

  function RawSeed(line: string): seq<string>
    requires IsMarker(line)
  {
    if Remaining(line) != "" then [line] else []
  }

  /** A slide whose lines are still being collected: the digit of its marker,
      `current_content` and `current_raw`. */
  datatype Pending = Pending(digit: char, content: seq<string>, raw: seq<string>)

  /** `Slide(f"@{digit}", '\n'.join(content), '\n'.join(raw))`; the
      constructor strips both texts. */
  function Finish(p: Pending): (b: Block)
    ensures b.slideType == ['@', p.digit]
    ensures Normalized(b)
  {
    Block(['@', p.digit], Strip(Join(p.content, "\n")), Strip(Join(p.raw, "\n")))
  }

  function FinishAll(ps: seq<Pending>): (bs: seq<Block>)
    ensures |bs| == |ps|
  {
    if ps == [] then [] else [Finish(ps[0])] + FinishAll(ps[1..])
  }

  lemma {:induction false} FinishAllAppend(a: seq<Pending>, b: seq<Pending>)
    ensures FinishAll(a + b) == FinishAll(a) + FinishAll(b)
  {
    if a == [] {
      assert a + b == b;
    } else {
      assert (a + b)[1..] == a[1..] + b;
      FinishAllAppend(a[1..], b);
    }
  }

  /** The buffers after appending further lines to both. */
  function Extend(p: Pending, lines: seq<string>): Pending
  {
    Pending(p.digit, p.content + lines, p.raw + lines)
  }

  /** The buffers a marker line starts: only its digit and its seeds. */
  function Opened(line: string): Pending
    requires IsMarker(line)
  {
    Pending(line[1], Seed(line), RawSeed(line))
  }

  /** A marker line closes the open slide, if any, and opens its own. */
  lemma {:induction false} StepOnMarker(st: State, line: string)
    requires IsMarker(line)
    ensures Step(st, line) == State(Close(st), Some(Opened(line)))
  {
    MarkerIsNotComment(line);
  }

  /** The loop's state: the slides closed so far and the open one, if any
      (`current_slide_type` is None exactly when no slide is open). */
  datatype State = State(done: seq<Pending>, current: Option<Pending>)

  const Start := State([], None)

  /** The closed slides followed by the open one: what the code after the
      loop appends to `slides`. */
  function Close(st: State): seq<Pending>
  {
    match st.current
    case None => st.done
    case Some(p) => st.done + [p]
  }

  /** One iteration of the loop over the lines. */
  function Step(st: State, line: string): State
  {
    if IsComment(line) then st
    else if IsMarker(line) then
      State(Close(st), Some(Opened(line)))
    else if st.current.Some? then
      State(st.done, Some(Extend(st.current.value, [line])))
    else st
  }

  function Run(st: State, lines: seq<string>): State
    decreases |lines|
  {
    if lines == [] then st else Run(Step(st, lines[0]), lines[1..])
  }

  function ParseLines(lines: seq<string>): seq<Block>
  {
    FinishAll(Close(Run(Start, lines)))
  }

  /** `parse_draft` on the whole text, as a function. */
  function ParseDraftSpec(text: string): seq<Block>
  {
    ParseLines(Split(text, '\n'))
  }

  // ---------------------------------------------------------------------
  // The independent description of the result

  predicate CommentFree(lines: seq<string>)
  {
    lines == [] || (!IsComment(lines[0]) && CommentFree(lines[1..]))
  }

  function NonComment(lines: seq<string>): (r: seq<string>)
    ensures CommentFree(r)
  {
    if lines == [] then []
    else if IsComment(lines[0]) then NonComment(lines[1..])
    else [lines[0]] + NonComment(lines[1..])
  }

  /** Number of leading lines before the next marker line. */
  function BodyLength(lines: seq<string>): (n: nat)
    ensures n <= |lines|
  {
    if lines == [] || IsMarker(lines[0]) then 0 else 1 + BodyLength(lines[1..])
  }

  /** The slide a marker line and the lines of its body make: the stripped
      text after the digit (when there is any) followed by the body lines;
      the raw buffer starts with the whole marker line instead. */
  function Group(marker: string, body: seq<string>): Pending
    requires IsMarker(marker)
  {
    var seed := Strip(marker[2..]);
    Pending(marker[1], (if seed != "" then [seed] else []) + body, (if seed != "" then [marker] else []) + body)
  }

  /** Comment-free lines cut into marker-headed groups; lines before the first
      marker belong to no group. */
  function Groups(lines: seq<string>): seq<Pending>
    decreases |lines|
  {
    if lines == [] then []
    else if !IsMarker(lines[0]) then Groups(lines[1..])
    else
      var n := BodyLength(lines[1..]);
      [Group(lines[0], lines[1..1 + n])] + Groups(lines[1 + n..])
  }

  function Grouped(text: string): seq<Block>
  {
    FinishAll(Groups(NonComment(Split(text, '\n'))))
  }

  // ---------------------------------------------------------------------
  // The loop

  /** The fold state the loop variables stand for. */
  function Current(done: seq<Pending>, slideType: Option<char>, content: seq<string>, raw: seq<string>): State
  {
    State(done, if slideType.Some? then Some(Pending(slideType.value, content, raw)) else None)
  }

  /** `parse_draft`: the slides of a draft, in the order of their markers. */
  method ParseDraft(content: string) returns (slides: seq<Slide>)
    ensures Views(slides) == ParseDraftSpec(content)
    ensures Views(slides) == Grouped(content)
  {
    slides := [];
    var lines := Split(content, '\n');
    var currentType: Option<char> := None;
    var currentContent: seq<string> := [];
    var currentRaw: seq<string> := [];
    ghost var done: seq<Pending> := [];
    for i := 0 to |lines|
      invariant Views(slides) == FinishAll(done)
      invariant Close(Run(Current(done, currentType, currentContent, currentRaw), lines[i..]))
             == Close(Run(Start, lines))
    {
      var line := lines[i];
      ghost var before := Current(done, currentType, currentContent, currentRaw);
      assert lines[i..][1..] == lines[i + 1..];
      assert Run(before, lines[i..]) == Run(Step(before, line), lines[i + 1..]);
      if StartsWith(Strip(line), "@@") {
        assert Step(before, line) == before;
      } else {
        var markerMatch := MatchMarker(line);
        if markerMatch.Match? {
          ghost var closed := Close(before);
          ghost var started := Opened(line);
          StepOnMarker(before, line);
          if currentType.Some? {
            slides := Emit(slides, done, currentType.value, currentContent, currentRaw);
            done := done + [Pending(currentType.value, currentContent, currentRaw)];
          }
          currentType := Some(markerMatch.digit);
          var remaining := if markerMatch.rest.Some? && markerMatch.rest.value != "" then markerMatch.rest.value else "";
          remaining := Strip(remaining);
          assert remaining == Remaining(line);
          if remaining != "" {
            currentContent := [remaining];
            currentRaw := [line];
          } else {
            currentContent := [];
            currentRaw := [];
          }
          assert done == closed;
          assert Some(started) == Current(done, currentType, currentContent, currentRaw).current;
        } else if currentType.Some? {
          currentContent := currentContent + [line];
          currentRaw := currentRaw + [line];
          assert Step(before, line) == Current(done, currentType, currentContent, currentRaw);
        } else {
          assert Step(before, line) == before;
        }
      }
    }
    assert lines[|lines|..] == [];
    if currentType.Some? {
      slides := Emit(slides, done, currentType.value, currentContent, currentRaw);
      done := done + [Pending(currentType.value, currentContent, currentRaw)];
    }
    ParseMatchesGrouping(content);
  }

  /** `slides.append(Slide(f"@{digit}", '\n'.join(content), '\n'.join(raw)))` */
  method Emit(slides: seq<Slide>, ghost done: seq<Pending>, digit: char, content: seq<string>, raw: seq<string>)
    returns (longer: seq<Slide>)
    requires Views(slides) == FinishAll(done)
    ensures Views(longer) == FinishAll(done + [Pending(digit, content, raw)])
  {
    var slide := new Slide(['@', digit], Join(content, "\n"), Join(raw, "\n"));
    FinishAllAppend(done, [Pending(digit, content, raw)]);
    longer := slides + [slide];
  }

  // ---------------------------------------------------------------------
  // The fold and the grouping agree

  /** Comment lines leave the state alone, so the fold sees only the rest. */
  lemma {:induction false} RunSkipsComments(st: State, lines: seq<string>)
    ensures Run(st, lines) == Run(st, NonComment(lines))
    decreases |lines|
  {
    if lines != [] {
      RunSkipsComments(Step(st, lines[0]), lines[1..]);
      if IsComment(lines[0]) {
        RunSkipsComments(st, lines[1..]);
      } else {
        assert ([lines[0]] + NonComment(lines[1..]))[1..] == NonComment(lines[1..]);
      }
    }
  }

  /** A marker line starts the same buffers as the grouping gives it. */
  lemma {:induction false} OpenedIsGroup(marker: string, body: seq<string>)
    requires IsMarker(marker)
    ensures Extend(Opened(marker), body) == Group(marker, body)
  {
  }

  /** From an open slide, the comment-free lines up to the next marker extend
      it, and the rest is grouped. */
  lemma {:induction false} RunFromOpen(done: seq<Pending>, p: Pending, lines: seq<string>)
    requires CommentFree(lines)
    ensures var n := BodyLength(lines);
      Close(Run(State(done, Some(p)), lines)) == done + [Extend(p, lines[..n])] + Groups(lines[n..])
    decreases |lines|, 1
  {
    if lines == [] {
      assert p.content + [] == p.content && p.raw + [] == p.raw;
    } else if IsMarker(lines[0]) {
      RunFromOpenMarker(done, p, lines);
      assert BodyLength(lines) == 0;
      assert lines[..0] == [] && lines[0..] == lines;
      assert Extend(p, []) == p by {
        assert p.content + [] == p.content && p.raw + [] == p.raw;
      }
    } else {
      RunFromOpenText(done, p, lines);
    }
  }

  lemma {:induction false} RunFromOpenMarker(done: seq<Pending>, p: Pending, lines: seq<string>)
    requires CommentFree(lines) && lines != [] && IsMarker(lines[0])
    ensures Close(Run(State(done, Some(p)), lines)) == done + [p] + Groups(lines)
    decreases |lines|, 0
  {
    var rest := lines[1..];
    var st := State(done, Some(p));
    var m := BodyLength(rest);
    assert !IsComment(lines[0]) && CommentFree(rest);
    RunCons(st, lines);
    StepOnMarker(st, lines[0]);
    RunFromOpen(done + [p], Opened(lines[0]), rest);
    OpenedIsGroup(lines[0], rest[..m]);
    var g := Group(lines[0], rest[..m]);
    var others := Groups(rest[m..]);
    assert Close(Run(st, lines)) == (done + [p]) + [g] + others;
    TailSlices(lines, m);
    assert Groups(lines) == [g] + others;
    AppendAssoc(done + [p], [g], others);
  }

  lemma {:induction false} RunFromOpenText(done: seq<Pending>, p: Pending, lines: seq<string>)
    requires CommentFree(lines) && lines != [] && !IsMarker(lines[0])
    ensures var n := BodyLength(lines);
      Close(Run(State(done, Some(p)), lines)) == done + [Extend(p, lines[..n])] + Groups(lines[n..])
    decreases |lines|, 0
  {
    var n := BodyLength(lines);
    var rest := lines[1..];
    var st := State(done, Some(p));
    var q := Extend(p, [lines[0]]);
    assert !IsComment(lines[0]) && CommentFree(rest);
    RunCons(st, lines);
    StepOnText(st, lines[0]);
    RunFromOpen(done, q, rest);
    assert BodyLength(rest) == n - 1;
    HeadSplit(lines, n);
    AppendAssoc(p.content, [lines[0]], rest[..n - 1]);
    AppendAssoc(p.raw, [lines[0]], rest[..n - 1]);
  }

  lemma {:induction false} RunCons(st: State, lines: seq<string>)
    requires lines != []
    ensures Run(st, lines) == Run(Step(st, lines[0]), lines[1..])
  {
  }

  /** The first `n` elements are the head and the first `n - 1` of the tail. */
  lemma {:induction false} HeadSplit<T>(s: seq<T>, n: nat)
    requires 0 < n <= |s|
    ensures s[..n] == [s[0]] + s[1..][..n - 1] && s[1..][n - 1..] == s[n..]
  {
  }

  /** Slices of the tail are slices of the whole, shifted by one. */
  lemma {:induction false} TailSlices<T>(s: seq<T>, m: nat)
    requires 1 + m <= |s|
    ensures s[1..][..m] == s[1..1 + m] && s[1..][m..] == s[1 + m..]
  {
  }

  /** With no slide open, the comment-free lines are exactly grouped. */
  lemma {:induction false} RunFromIdle(done: seq<Pending>, lines: seq<string>)
    requires CommentFree(lines)
    ensures Close(Run(State(done, None), lines)) == done + Groups(lines)
    decreases |lines|
  {
    if lines != [] {
      var st := State(done, None);
      RunCons(st, lines);
      if IsMarker(lines[0]) {
        RunFromIdleMarker(done, lines);
      } else {
        assert Step(st, lines[0]) == st;
        RunFromIdle(done, lines[1..]);
      }
    }
  }

  lemma {:induction false} RunFromIdleMarker(done: seq<Pending>, lines: seq<string>)
    requires CommentFree(lines) && lines != [] && IsMarker(lines[0])
    ensures Close(Run(State(done, None), lines)) == done + Groups(lines)
  {
    var st := State(done, None);
    var rest := lines[1..];
    var m := BodyLength(rest);
    RunCons(st, lines);
    StepOnMarker(st, lines[0]);
    assert CommentFree(rest);
    RunFromOpen(done, Opened(lines[0]), rest);
    OpenedIsGroup(lines[0], rest[..m]);
    TailSlices(lines, m);
    var g := Group(lines[0], lines[1..1 + m]);
    var others := Groups(lines[1 + m..]);
    assert Groups(lines) == [g] + others;
    AppendAssoc(done, [g], others);
  }

  /** The fold and the grouping describe the same slides. */
  lemma {:induction false} ParseMatchesGrouping(text: string)
    ensures ParseDraftSpec(text) == Grouped(text)
  {
    var lines := Split(text, '\n');
    RunSkipsComments(Start, lines);
    RunFromIdle([], NonComment(lines));
    assert [] + Groups(NonComment(lines)) == Groups(NonComment(lines));
  }

  // ---------------------------------------------------------------------
  // Properties of the parse

  /** Appending lines runs the fold on from where it stopped. */
  lemma {:induction false} RunAppend(st: State, a: seq<string>, b: seq<string>)
    ensures Run(st, a + b) == Run(Run(st, a), b)
    decreases |a|
  {
    if a == [] {
      assert a + b == b;
    } else {
      assert (a + b)[1..] == a[1..] + b;
      RunAppend(Step(st, a[0]), a[1..], b);
    }
  }

  /** A comment line, wherever it stands, neither opens nor closes a slide and
      adds nothing to any buffer: the parse is the same without it. */
  lemma {:induction false} CommentLineIsInert(before: seq<string>, line: string, after: seq<string>)
    requires IsComment(line)
    ensures ParseLines(before + [line] + after) == ParseLines(before + after)
  {
    RunAppend(Start, before, [line] + after);
    RunAppend(Start, before, after);
    assert before + [line] + after == before + ([line] + after);
    assert ([line] + after)[1..] == after;
  }

  /** With no slide open, lines that are not markers change nothing. */
  lemma {:induction false} IdleStaysIdle(done: seq<Pending>, lines: seq<string>)
    requires forall k :: 0 <= k < |lines| ==> !IsMarker(lines[k])
    ensures Run(State(done, None), lines) == State(done, None)
    decreases |lines|
  {
    if lines != [] {
      assert !IsMarker(lines[0]);
      IdleStaysIdle(done, lines[1..]);
    }
  }

  /** Lines before the first marker are discarded. */
  lemma {:induction false} PreambleDropped(preamble: seq<string>, rest: seq<string>)
    requires forall k :: 0 <= k < |preamble| ==> !IsMarker(preamble[k])
    ensures ParseLines(preamble + rest) == ParseLines(rest)
  {
    RunAppend(Start, preamble, rest);
    IdleStaysIdle([], preamble);
  }

  /** What a marker puts into the buffers: its stripped text after the digit
      as the first content line and the whole marker line as the first raw
      line when that text is not empty, and nothing for a bare marker. */
  lemma {:induction false} MarkerSeeds(line: string)
    requires IsMarker(line)
    ensures var rest := Strip(line[2..]);
      && Opened(line).digit == line[1]
      && Opened(line).content == (if rest != "" then [rest] else [])
      && Opened(line).raw == (if rest != "" then [line] else [])
    ensures AllSpace(line[2..]) ==> Opened(line).content == [] && Opened(line).raw == []
  {
    StripShape(line[2..]);
  }

  /** `slide_type` of each slide, in order. */
  function SlideTypes(slides: seq<Block>): (types: seq<string>)
    ensures |types| == |slides|
  {
    if slides == [] then [] else [slides[0].slideType] + SlideTypes(slides[1..])
  }

  /** `@` and the digit of each marker line, in order. */
  function MarkerTypes(lines: seq<string>): seq<string>
  {
    if lines == [] then []
    else (if IsMarker(lines[0]) then [lines[0][..2]] else []) + MarkerTypes(lines[1..])
  }

  function PendingTypes(ps: seq<Pending>): seq<string>
  {
    if ps == [] then [] else [['@', ps[0].digit]] + PendingTypes(ps[1..])
  }

  lemma {:induction false} FinishAllTypes(ps: seq<Pending>)
    ensures SlideTypes(FinishAll(ps)) == PendingTypes(ps)
  {
    if ps != [] {
      FinishAllTypes(ps[1..]);
    }
  }

  lemma {:induction false} MarkerTypesAppend(a: seq<string>, b: seq<string>)
    ensures MarkerTypes(a + b) == MarkerTypes(a) + MarkerTypes(b)
  {
    if a == [] {
      assert a + b == b;
    } else {
      assert (a + b)[1..] == a[1..] + b;
      MarkerTypesAppend(a[1..], b);
    }
  }

  /** A body holds no marker line. */
  lemma {:induction false} BodyHasNoMarkers(lines: seq<string>)
    ensures MarkerTypes(lines[..BodyLength(lines)]) == []
  {
    if lines != [] && !IsMarker(lines[0]) {
      var n := BodyLength(lines);
      BodyHasNoMarkers(lines[1..]);
      assert lines[..n][1..] == lines[1..][..n - 1];
    }
  }

  /** Every group comes from one marker line, in order. */
  lemma {:induction false} GroupsTypes(lines: seq<string>)
    ensures PendingTypes(Groups(lines)) == MarkerTypes(lines)
    decreases |lines|, 1
  {
    if lines != [] {
      if IsMarker(lines[0]) {
        GroupsTypesMarker(lines);
      } else {
        GroupsTypes(lines[1..]);
      }
    }
  }

  lemma {:induction false} GroupsTypesMarker(lines: seq<string>)
    requires lines != [] && IsMarker(lines[0])
    ensures PendingTypes(Groups(lines)) == MarkerTypes(lines)
    decreases |lines|, 0
  {
    var n := BodyLength(lines[1..]);
    var others := lines[1 + n..];
    GroupsHead(lines);
    GroupsTypes(others);
    MarkerTypesOfGroup(lines);
  }

  /** The first group of lines that start with a marker, and the rest. */
  lemma {:induction false} GroupsHead(lines: seq<string>)
    requires lines != [] && IsMarker(lines[0])
    ensures var n := BodyLength(lines[1..]);
      PendingTypes(Groups(lines)) == [['@', lines[0][1]]] + PendingTypes(Groups(lines[1 + n..]))
  {
    var n := BodyLength(lines[1..]);
    var g := Group(lines[0], lines[1..1 + n]);
    var others := Groups(lines[1 + n..]);
    GroupsUnfold(lines);
    PendingTypesOfEqual(Groups(lines), [g] + others);
    PendingTypesCons(g, others);
    assert g.digit == lines[0][1];
  }

  /** Lines that start with a marker: its group, then the groups after its body. */
  lemma {:induction false} GroupsUnfold(lines: seq<string>)
    requires lines != [] && IsMarker(lines[0])
    ensures var n := BodyLength(lines[1..]);
      Groups(lines) == [Group(lines[0], lines[1..1 + n])] + Groups(lines[1 + n..])
  {
  }

  lemma {:induction false} PendingTypesOfEqual(a: seq<Pending>, b: seq<Pending>)
    requires a == b
    ensures PendingTypes(a) == PendingTypes(b)
  {
  }

  /** The marker types of lines that start with a marker: its own type, then
      those after its body. */
  lemma {:induction false} MarkerTypesOfGroup(lines: seq<string>)
    requires lines != [] && IsMarker(lines[0])
    ensures var n := BodyLength(lines[1..]);
      MarkerTypes(lines) == [['@', lines[0][1]]] + MarkerTypes(lines[1 + n..])
  {
    var rest := lines[1..];
    var n := BodyLength(rest);
    MarkerPrefix(lines[0]);
    assert MarkerTypes(lines) == [lines[0][..2]] + MarkerTypes(rest);
    BodyHasNoMarkers(rest);
    SplitAt(rest, n);
    MarkerTypesAppend(rest[..n], rest[n..]);
    assert rest[n..] == lines[1 + n..];
  }

  /** The type a marker line names. */
  lemma {:induction false} MarkerPrefix(line: string)
    requires IsMarker(line)
    ensures |line| >= 2 && line[..2] == ['@', line[1]]
  {
    MarkerShape(line);
  }

  lemma {:induction false} PendingTypesCons(p: Pending, ps: seq<Pending>)
    ensures PendingTypes([p] + ps) == [['@', p.digit]] + PendingTypes(ps)
  {
    assert ([p] + ps)[1..] == ps;
  }

  lemma {:induction false} SplitAt<T>(s: seq<T>, n: nat)
    requires n <= |s|
    ensures s == s[..n] + s[n..]
  {
  }

  /** Dropping comments keeps every marker line, since none is a comment. */
  lemma {:induction false} NonCommentTypes(lines: seq<string>)
    ensures MarkerTypes(NonComment(lines)) == MarkerTypes(lines)
  {
    if lines != [] {
      NonCommentTypes(lines[1..]);
      if IsComment(lines[0]) {
        CommentIsNotMarker(lines[0]);
        MarkerTypesSkip(lines);
      } else {
        MarkerTypesKeep(lines);
      }
    }
  }

  lemma {:induction false} CommentIsNotMarker(line: string)
    requires IsComment(line)
    ensures !IsMarker(line)
  {
    if IsMarker(line) {
      MarkerIsNotComment(line);
    }
  }

  /** A line that is not a marker adds no type. */
  lemma {:induction false} MarkerTypesSkip(lines: seq<string>)
    requires lines != [] && !IsMarker(lines[0])
    ensures MarkerTypes(lines) == MarkerTypes(lines[1..])
  {
  }

  /** A line kept by the comment filter keeps its type in front of the rest. */
  lemma {:induction false} MarkerTypesKeep(lines: seq<string>)
    requires lines != [] && !IsComment(lines[0])
    ensures MarkerTypes(NonComment(lines)) == MarkerTypes([lines[0]]) + MarkerTypes(NonComment(lines[1..]))
  {
    MarkerTypesAppend([lines[0]], NonComment(lines[1..]));
  }

  /** One slide per marker line, in the order of the markers, each typed by
      its marker: so there are as many slides as non-comment marker lines. */
  lemma {:induction false} ParseTypes(text: string)
    ensures SlideTypes(ParseDraftSpec(text)) == MarkerTypes(NonComment(Split(text, '\n')))
    ensures SlideTypes(ParseDraftSpec(text)) == MarkerTypes(Split(text, '\n'))
    ensures |ParseDraftSpec(text)| == |MarkerTypes(Split(text, '\n'))|
  {
    var lines := NonComment(Split(text, '\n'));
    ParseMatchesGrouping(text);
    FinishAllTypes(Groups(lines));
    GroupsTypes(lines);
    NonCommentTypes(Split(text, '\n'));
  }

  /** Every type a marker gives is `@` and a digit from 1 to 7. */
  lemma {:induction false} MarkerTypesValid(lines: seq<string>)
    ensures forall k :: 0 <= k < |MarkerTypes(lines)| ==> KindOf(MarkerTypes(lines)[k]) != Unknown
  {
    if lines != [] {
      MarkerTypesValid(lines[1..]);
      if IsMarker(lines[0]) {
        MarkerShape(lines[0]);
      }
    }
  }

  /** Every slide the parse produces has one of the seven known types. */
  lemma {:induction false} ParsedKindsKnown(text: string)
    ensures forall b <- ParseDraftSpec(text) :: KindOf(b.slideType) != Unknown
  {
    var slides := ParseDraftSpec(text);
    ParseTypes(text);
    MarkerTypesValid(Split(text, '\n'));
    SlideTypesAt(slides);
    forall b | b in slides
      ensures KindOf(b.slideType) != Unknown
    {
      var k :| 0 <= k < |slides| && slides[k] == b;
      assert SlideTypes(slides)[k] == b.slideType;
    }
  }

  /** The `k`-th type is the type of the `k`-th slide. */
  lemma {:induction false} SlideTypesAt(slides: seq<Block>)
    ensures forall k :: 0 <= k < |slides| ==> SlideTypes(slides)[k] == slides[k].slideType
    decreases |slides|
  {
    if slides != [] {
      SlideTypesAt(slides[1..]);
      forall k | 0 < k < |slides|
        ensures SlideTypes(slides)[k] == slides[k].slideType
      {
        assert slides[1..][k - 1] == slides[k];
      }
    }
  }

  // ---------------------------------------------------------------------
  // The same properties on the text of a draft

  /** A draft written as lines without line breaks, joined by newlines,
      parses as those lines. */
  lemma {:induction false} DraftOfLines(lines: seq<string>)
    requires forall line <- lines :: '\n' !in line
    ensures ParseDraftSpec(Join(lines, "\n")) == ParseLines(lines)
  {
    if lines == [] {
      EmptyDraft();
    } else {
      SplitJoin(lines, '\n');
    }
  }

  /** In the text of a draft, a comment line can be removed without changing
      the slides. */
  lemma {:induction false} CommentLineIsInertInDraft(before: seq<string>, line: string, after: seq<string>)
    requires IsComment(line) && '\n' !in line
    requires forall l <- before + after :: '\n' !in l
    ensures ParseDraftSpec(Join(before + [line] + after, "\n")) == ParseDraftSpec(Join(before + after, "\n"))
  {
    DraftOfLines(before + [line] + after);
    DraftOfLines(before + after);
    CommentLineIsInert(before, line, after);
  }

  /** In the text of a draft, the lines before the first marker can be
      removed without changing the slides. */
  lemma {:induction false} PreambleDroppedInDraft(preamble: seq<string>, rest: seq<string>)
    requires forall k :: 0 <= k < |preamble| ==> !IsMarker(preamble[k])
    requires forall l <- preamble + rest :: '\n' !in l
    ensures ParseDraftSpec(Join(preamble + rest, "\n")) == ParseDraftSpec(Join(rest, "\n"))
  {
    DraftOfLines(preamble + rest);
    DraftOfLines(rest);
    PreambleDropped(preamble, rest);
  }

  // ---------------------------------------------------------------------
  // Examples

  lemma {:induction false} EmptyDraft()
    ensures ParseDraftSpec("") == []
  {
    assert Split("", '\n') == [""];
    assert !IsMarker("") && !IsComment("");
  }

  lemma {:induction false} SplitTwo(a: string, b: string)
    requires '\n' !in a && '\n' !in b
    ensures Split(a + "\n" + b, '\n') == [a, b]
  {
    var t := a + "\n" + b;
    assert t[|a|] == '\n';
    assert '\n' !in t[..|a|] by { assert t[..|a|] == a; }
    assert IndexOf(t, '\n') == |a|;
    assert t[|a| + 1..] == b;
  }

  lemma {:induction false} RunTwo(st: State, first: string, second: string)
    ensures Run(st, [first, second]) == Step(Step(st, first), second)
  {
    assert [first, second][1..] == [second];
    assert [second][1..] == [];
    assert Run(st, [first, second]) == Run(Step(st, first), [second]);
    assert Run(Step(st, first), [second]) == Run(Step(Step(st, first), second), []);
  }

  /** The text after a marker and one space, when it is already stripped. */
  lemma {:induction false} MarkerText(d: char, x: string)
    requires '1' <= d <= '7' && x != [] && IsStripped(x)
    ensures IsMarker(['@', d, ' '] + x)
    ensures Opened(['@', d, ' '] + x) == Pending(d, [x], [['@', d, ' '] + x])
  {
    var m := ['@', d, ' '] + x;
    MarkerShape(m);
    var t := m[2..];
    assert t == [' '] + x;
    assert LeadCount(t) == 1 by {
      assert t[1..] == x;
      assert LeadCount(x) == 0;
    }
    StripAfterLead(t);
    assert t[1..] == x;
    StripOfStripped(x);
  }

  lemma {:induction false} MarkerLineOneLine(d: char, x: string)
    requires d != '\n' && '\n' !in x
    ensures '\n' !in ['@', d, ' '] + x
  {
  }

  /** Parsing the lines of a text. */
  lemma {:induction false} ParseOfLines(text: string, lines: seq<string>, ps: seq<Pending>)
    requires Split(text, '\n') == lines
    requires Close(Run(Start, lines)) == ps
    ensures ParseDraftSpec(text) == FinishAll(ps)
  {
  }

  lemma {:induction false} FinishTwo(p1: Pending, p2: Pending)
    ensures FinishAll([p1, p2]) == [Finish(p1), Finish(p2)]
  {
    assert [p1, p2][1..] == [p2];
  }

  lemma {:induction false} BareMarkerRun(d1: char, d2: char, x: string)
    requires '1' <= d1 <= '7' && '1' <= d2 <= '7'
    requires x != [] && IsStripped(x)
    ensures Close(Run(Start, [['@', d1], ['@', d2, ' '] + x]))
         == [Pending(d1, [], []), Pending(d2, [x], [['@', d2, ' '] + x])]
  {
    var m1 := ['@', d1];
    var m2 := ['@', d2, ' '] + x;
    var p1 := Pending(d1, [], []);
    MarkerShape(m1);
    MarkerText(d2, x);
    assert Opened(m1) == p1 by { assert m1[2..] == []; }
    RunTwo(Start, m1, m2);
    StepOnMarker(Start, m1);
    StepOnMarker(State([], Some(p1)), m2);
  }

  lemma {:induction false} BareMarkerSlides(d1: char, d2: char, x: string)
    requires x != [] && IsStripped(x)
    ensures Finish(Pending(d1, [], [])) == Block(['@', d1], "", "")
    ensures Finish(Pending(d2, [x], [['@', d2, ' '] + x])) == Block(['@', d2], x, ['@', d2, ' '] + x)
  {
    StripOfStripped("");
    StripOfStripped(x);
    StripOfStripped(['@', d2, ' '] + x);
  }

  /** `"@1\n@2 X"` gives an empty `@1` slide and an `@2` slide holding `X`,
      for any two markers and any stripped one-line text. */
  lemma {:induction false} BareMarkerThenMarker(d1: char, d2: char, x: string)
    requires '1' <= d1 <= '7' && '1' <= d2 <= '7'
    requires x != [] && IsStripped(x) && '\n' !in x
    ensures ParseDraftSpec(['@', d1] + "\n" + ['@', d2, ' '] + x)
         == [Block(['@', d1], "", ""), Block(['@', d2], x, ['@', d2, ' '] + x)]
  {
    var m1 := ['@', d1];
    var m2 := ['@', d2, ' '] + x;
    MarkerLineOneLine(d2, x);
    SplitTwo(m1, m2);
    assert ['@', d1] + "\n" + ['@', d2, ' '] + x == m1 + "\n" + m2;
    BareMarkerRun(d1, d2, x);
    ParseOfLines(m1 + "\n" + m2, [m1, m2], [Pending(d1, [], []), Pending(d2, [x], [m2])]);
    FinishTwo(Pending(d1, [], []), Pending(d2, [x], [m2]));
    BareMarkerSlides(d1, d2, x);
  }

  lemma {:induction false} MultiLineRun(d: char, a: string, b: string)
    requires '1' <= d <= '7' && a != [] && IsStripped(a)
    requires !IsMarker(b) && !IsComment(b)
    ensures Close(Run(Start, [['@', d, ' '] + a, b])) == [Pending(d, [a, b], [['@', d, ' '] + a, b])]
  {
    var m := ['@', d, ' '] + a;
    var p := Pending(d, [a], [m]);
    var st := State([], Some(p));
    MarkerText(d, a);
    RunTwo(Start, m, b);
    StepOnMarker(Start, m);
    assert Step(Start, m) == st;
    StepOnText(st, b);
    var q := Extend(p, [b]);
    AppendEmpty([q]);
    Pair(a, b);
    Pair(m, b);
  }

  /** A text line extends the open slide. */
  lemma {:induction false} StepOnText(st: State, line: string)
    requires !IsComment(line) && !IsMarker(line) && st.current.Some?
    ensures Step(st, line) == State(st.done, Some(Extend(st.current.value, [line])))
  {
  }

  lemma {:induction false} MultiLineSlide(d: char, m: string, a: string, b: string)
    requires a != [] && IsStripped(a) && m != [] && !IsSpace(m[0]) && b != [] && IsStripped(b)
    ensures Finish(Pending(d, [a, b], [m, b])) == Block(['@', d], a + "\n" + b, m + "\n" + b)
  {
    assert Join([a, b], "\n") == a + "\n" + b by { assert [a, b][1..] == [b]; }
    assert Join([m, b], "\n") == m + "\n" + b by { assert [m, b][1..] == [b]; }
    StripOfStripped(a + "\n" + b);
    StripOfStripped(m + "\n" + b);
  }

  /** `"@3 line one\nline two"` gives one slide whose content is both lines,
      for any marker and any two stripped lines of which the second is text. */
  lemma {:induction false} MultiLineBody(d: char, a: string, b: string)
    requires '1' <= d <= '7'
    requires a != [] && IsStripped(a) && '\n' !in a
    requires b != [] && IsStripped(b) && '\n' !in b && !IsMarker(b) && !IsComment(b)
    ensures ParseDraftSpec(['@', d, ' '] + a + "\n" + b)
         == [Block(['@', d], a + "\n" + b, ['@', d, ' '] + a + "\n" + b)]
  {
    var m := ['@', d, ' '] + a;
    MarkerLineOneLine(d, a);
    SplitTwo(m, b);
    MultiLineRun(d, a, b);
    ParseOfLines(m + "\n" + b, [m, b], [Pending(d, [a, b], [m, b])]);
    MultiLineSlide(d, m, a, b);
    FinishOne(Pending(d, [a, b], [m, b]));
  }

  lemma {:induction false} FinishOne(p: Pending)
    ensures FinishAll([p]) == [Finish(p)]
  {
    assert [p][1..] == [];
  }
}
