/**
 * The inline markup of tebook/renderer.py.
 *
 * `process_text` runs three regular-expression substitutions and a newline
 * replacement, in this order:
 *   {{X}}  becomes <code>X</code>        (X holds no '}')
 *   {X}    becomes <strong>X</strong>    (X holds no '}')
 *   [[X]]  becomes a link or an image   (X holds no ']')
 *   '\n'   becomes <br>
 * Each substitution is `Substitute`, a left-to-right scanner with the same
 * matches as `re.sub` for these patterns: at each position it tries the
 * pattern, and the group of a match runs to the first closing character,
 * which must be followed by the rest of the closing delimiter.
 *
 * `process_latin_italic` wraps every run of two or more ASCII letters that
 * stands between word boundaries (`\b[a-zA-Z]{2,}\b`). `Italicize` is that
 * scanner; `ItalicRef` describes the result by whole words.
 */
module Inline {
  import opened Text

  // ---------------------------------------------------------------------
  // The three delimited substitutions

  datatype Rule = Code | Strong | Link

  function Open(r: Rule): string
  {
    match r
    case Code => "{{"
    case Strong => "{"
    case Link => "[["
  }

  function Close(r: Rule): string
  {
    match r
    case Code => "}}"
    case Strong => "}"
    case Link => "]]"
  }

  /** The character the group may not contain: `[^}]` or `[^\]]`. */
  function Stop(r: Rule): char
  {
    if r == Link then ']' else '}'
  }

  /** Whether a link target is a web address. */
  predicate IsWebAddress(link: string)
  {
    StartsWith(link, "http://") || StartsWith(link, "https://")
  }

  /** The replacement of a match whose group is `g` (`process_link` for links). */
  function Wrap(r: Rule, g: string): string
  {
    match r
    case Code => "<code>" + g + "</code>"
    case Strong => "<strong>" + g + "</strong>"
    case Link =>
      if IsWebAddress(g) then "<a href=\"" + g + "\" target=\"_blank\">" + g + "</a>"
      else "<img src=\"" + g + "\" alt=\"" + g + "\">"
  }

  /** The length of the group when a delimited pattern matches at the start
      of `s`: the opening delimiter, then one or more characters up to the
      first `stop` character, then the whole closing delimiter. */
  function MatchLength(s: string, open: string, close: string, stop: char): (m: Option<nat>)
    ensures m.Some? ==> 1 <= m.value && |open| + m.value + |close| <= |s|
    ensures m.Some? ==> stop !in s[|open|..|open| + m.value]
  {
    var o := |open|;
    if !StartsWith(s, open) || stop !in s[o..] then None
    else
      var j := IndexOf(s[o..], stop);
      assert s[o..][..j] == s[o..o + j];
      if j >= 1 && StartsWith(s[o + j..], close) then Some(j) else None
  }

  /** An opening delimiter, a group free of the stop character and a closing
      delimiter that begins with it: the match takes exactly that group. */
  lemma {:induction false} MatchLengthOf(open: string, g: string, close: string, rest: string, stop: char)
    requires g != [] && stop !in g && close != [] && close[0] == stop
    ensures var s := open + g + close + rest;
      && MatchLength(s, open, close, stop) == Some(|g|)
      && s[|open|..|open| + |g|] == g
      && s[|open| + |g| + |close|..] == rest
  {
    var s := open + g + close + rest;
    var o := |open|;
    var u := g + close + rest;
    assert s[..o] == open;
    assert s[o..] == u;
    assert u[|g|] == stop && u[..|g|] == g;
    assert StartsWith(s, open);
    assert stop in u;
    IndexOfFirst(u, stop, |g|);
    assert s[o..][..|g|] == s[o..o + |g|];
    assert s[o + |g|..] == close + rest;
    assert (close + rest)[..|close|] == close;
    assert StartsWith(s[o + |g|..], close);
  }

  /** Without the stop character there is no match. */
  lemma {:induction false} MatchLengthNoStop(s: string, open: string, close: string, stop: char)
    requires stop !in s
    ensures MatchLength(s, open, close, stop) == None
  {
    if StartsWith(s, open) {
      assert forall k :: 0 <= k < |s| - |open| ==> s[|open|..][k] == s[|open| + k];
    }
  }

  function MatchAt(s: string, r: Rule): (m: Option<nat>)
  {
    MatchLength(s, Open(r), Close(r), Stop(r))
  }

  /** The group of a match at the start of `s`. */
  function Group(s: string, r: Rule): string
    requires MatchAt(s, r).Some?
  {
    s[|Open(r)|..|Open(r)| + MatchAt(s, r).value]
  }

  /** What follows the closing delimiter of a match at the start of `s`. */
  function After(s: string, r: Rule): (rest: string)
    requires MatchAt(s, r).Some?
    ensures |rest| < |s|
  {
    s[|Open(r)| + MatchAt(s, r).value + |Close(r)|..]
  }

  /** `re.sub(pattern, replacement, s)` for one of the three rules. */
  function Substitute(s: string, r: Rule): string
    decreases |s|
  {
    if s == [] then []
    else if MatchAt(s, r).Some? then Wrap(r, Group(s, r)) + Substitute(After(s, r), r)
    else [s[0]] + Substitute(s[1..], r)
  }

  /** `process_text` */
  function ProcessText(text: string): string
  {
    var code := Substitute(text, Code);
    var strong := Substitute(code, Strong);
    var links := Substitute(strong, Link);
    ReplaceChar(links, '\n', "<br>")
  }

  // ---------------------------------------------------------------------
  // What the substitutions do

  lemma {:induction false} CloseBeginsWithStop(r: Rule)
    ensures Close(r) != [] && Close(r)[0] == Stop(r)
  {
  }

  /** A delimited group at the front is replaced and scanning resumes after
      the closing delimiter, so a replacement is never scanned again. */
  lemma {:induction false} SubstituteMatch(r: Rule, g: string, rest: string)
    requires g != [] && Stop(r) !in g
    ensures Substitute(Open(r) + g + Close(r) + rest, r) == Wrap(r, g) + Substitute(rest, r)
  {
    var s := Open(r) + g + Close(r) + rest;
    CloseBeginsWithStop(r);
    MatchLengthOf(Open(r), g, Close(r), rest, Stop(r));
    SubstituteRewrite(s, r, |g|, g, rest);
  }

  /** The same, for a text already known to match with a group of length
      `j` that reads `g` and to go on with `rest` after the closing
      delimiter. */
  lemma {:induction false} SubstituteRewrite(s: string, r: Rule, j: nat, g: string, rest: string)
    requires MatchAt(s, r) == Some(j)
    requires |Open(r)| + j + |Close(r)| <= |s|
    requires s[|Open(r)|..|Open(r)| + j] == g && s[|Open(r)| + j + |Close(r)|..] == rest
    ensures Substitute(s, r) == Wrap(r, g) + Substitute(rest, r)
  {
    SubstituteUnfold(s, r);
    MatchPieces(s, r, j);
    assert Group(s, r) == g;
    assert After(s, r) == rest;
    AppendCongruence(Substitute(s, r), Wrap(r, Group(s, r)), Wrap(r, g),
      Substitute(After(s, r), r), Substitute(rest, r));
  }

  /** The group and the rest of a match of length `j`. */
  lemma {:induction false} MatchPieces(s: string, r: Rule, j: nat)
    requires MatchAt(s, r) == Some(j)
    ensures |Open(r)| + j + |Close(r)| <= |s|
    ensures Group(s, r) == s[|Open(r)|..|Open(r)| + j]
    ensures After(s, r) == s[|Open(r)| + j + |Close(r)|..]
  {
  }

  /** Where the pattern matches, the group is wrapped and the scan goes on
      after the closing delimiter. */
  lemma {:induction false} SubstituteUnfold(s: string, r: Rule)
    requires MatchAt(s, r).Some?
    ensures Substitute(s, r) == Wrap(r, Group(s, r)) + Substitute(After(s, r), r)
  {
  }

  /** Where the pattern does not match, the first character is copied. */
  lemma {:induction false} SubstituteCopies(s: string, r: Rule)
    requires s != [] && MatchAt(s, r) == None
    ensures Substitute(s, r) == [s[0]] + Substitute(s[1..], r)
  {
  }

  /** Text without the opening character passes through unchanged. */
  lemma {:induction false} SubstituteNoOpen(s: string, r: Rule)
    requires Open(r)[0] !in s
    ensures Substitute(s, r) == s
  {
    if s != [] {
      assert !StartsWith(s, Open(r)) by { assert s[0] != Open(r)[0]; }
      SubstituteCopies(s, r);
      SubstituteNoOpen(s[1..], r);
    }
  }

  /** Text without the closing character passes through unchanged: an
      opening delimiter that is never closed is left as it is. */
  lemma {:induction false} SubstituteUnclosed(s: string, r: Rule)
    requires Stop(r) !in s
    ensures Substitute(s, r) == s
  {
    if s != [] {
      MatchLengthNoStop(s, Open(r), Close(r), Stop(r));
      SubstituteCopies(s, r);
      SubstituteUnclosed(s[1..], r);
    }
  }

  /** `process_text` never leaves a newline: each becomes `<br>`. */
  lemma {:induction false} ProcessTextNoNewline(text: string)
    ensures '\n' !in ProcessText(text)
  {
    var links := Substitute(Substitute(Substitute(text, Code), Strong), Link);
    ReplaceCharRemoves(links, '\n', "<br>");
  }

  /** Text without braces, brackets or newlines is returned unchanged. */
  lemma {:induction false} ProcessTextPlain(text: string)
    requires '{' !in text && '[' !in text && '\n' !in text
    ensures ProcessText(text) == text
  {
    SubstituteNoOpen(text, Code);
    SubstituteNoOpen(text, Strong);
    SubstituteNoOpen(text, Link);
    ReplaceCharAbsent(text, '\n', "<br>");
  }

  /** Once the code pass is done, a text without brackets or newlines goes
      through the rest of `process_text` as the strong pass leaves it. */
  lemma {:induction false} AfterStrong(t: string)
    requires '[' !in t && '\n' !in t
    ensures ReplaceChar(Substitute(t, Link), '\n', "<br>") == t
  {
    SubstituteNoOpen(t, Link);
    ReplaceCharAbsent(t, '\n', "<br>");
  }

  /** `{{X}}` becomes `<code>X</code>`. */
  lemma {:induction false} ProcessTextCode(x: string)
    requires x != [] && '{' !in x && '}' !in x && '[' !in x && '\n' !in x
    ensures ProcessText("{{" + x + "}}") == "<code>" + x + "</code>"
  {
    SubstituteMatch(Code, x, []);
    assert "{{" + x + "}}" == Open(Code) + x + Close(Code) + [];
    CodeResult(x);
  }

  lemma {:induction false} CodeResult(x: string)
    requires '{' !in x && '[' !in x && '\n' !in x
    ensures ReplaceChar(Substitute(Substitute(Wrap(Code, x) + [], Strong), Link), '\n', "<br>")
      == "<code>" + x + "</code>"
  {
    var out := "<code>" + x + "</code>";
    assert Wrap(Code, x) + [] == out;
    NoBraceCode(x);
    SubstituteNoOpen(out, Strong);
    AfterStrong(out);
  }

  lemma {:induction false} NoBraceCode(x: string)
    requires '{' !in x && '[' !in x && '\n' !in x
    ensures '{' !in "<code>" + x + "</code>" && '[' !in "<code>" + x + "</code>"
    ensures '\n' !in "<code>" + x + "</code>"
  {
  }

  /** `{X}` becomes `<strong>X</strong>`: the code pass finds no `{{`. */
  lemma {:induction false} ProcessTextStrong(x: string)
    requires x != [] && '{' !in x && '}' !in x && '[' !in x && '\n' !in x
    ensures ProcessText("{" + x + "}") == "<strong>" + x + "</strong>"
  {
    var s := "{" + x + "}";
    SingleBraceNoCode(x);
    SubstituteMatch(Strong, x, []);
    assert s == Open(Strong) + x + Close(Strong) + [];
    StrongResult(x);
  }

  /** A text that differs from a prefix at some position does not start with it. */
  lemma {:induction false} DiffersAt(s: string, prefix: string, k: nat)
    requires k < |s| && k < |prefix| && s[k] != prefix[k]
    ensures !StartsWith(s, prefix)
  {
    if |prefix| <= |s| {
      assert s[..|prefix|][k] == s[k];
    }
  }

  lemma {:induction false} ConsTail(c: char, t: string)
    ensures ([c] + t)[0] == c && ([c] + t)[1..] == t
  {
  }

  /** A single brace before a brace-free text is not a code span. */
  lemma {:induction false} SingleBraceNoCode(x: string)
    requires x != [] && '{' !in x
    ensures Substitute("{" + x + "}", Code) == "{" + x + "}"
  {
    var t := x + "}";
    var s := "{" + t;
    AppendAssoc("{", x, "}");
    ConsTail('{', t);
    assert s[1] == x[0];
    DiffersAt(s, Open(Code), 1);
    assert MatchAt(s, Code) == None;
    SubstituteCopies(s, Code);
    assert '{' !in t;
    SubstituteNoOpen(t, Code);
  }

  lemma {:induction false} StrongResult(x: string)
    requires '[' !in x && '\n' !in x
    ensures ReplaceChar(Substitute(Wrap(Strong, x) + [], Link), '\n', "<br>") == "<strong>" + x + "</strong>"
  {
    var out := "<strong>" + x + "</strong>";
    assert Wrap(Strong, x) + [] == out;
    AfterStrong(out);
  }

  /** `[[X]]` becomes a link when X is a web address and an image otherwise. */
  lemma {:induction false} ProcessTextLink(x: string)
    requires x != [] && '{' !in x && ']' !in x && '\n' !in x
    ensures ProcessText("[[" + x + "]]") ==
      if IsWebAddress(x) then "<a href=\"" + x + "\" target=\"_blank\">" + x + "</a>"
      else "<img src=\"" + x + "\" alt=\"" + x + "\">"
  {
    var s := "[[" + x + "]]";
    assert '{' !in s;
    SubstituteNoOpen(s, Code);
    SubstituteNoOpen(s, Strong);
    SubstituteMatch(Link, x, []);
    assert s == Open(Link) + x + Close(Link) + [];
    LinkResult(x);
  }

  lemma {:induction false} LinkResult(x: string)
    requires '\n' !in x
    ensures ReplaceChar(Wrap(Link, x) + [], '\n', "<br>") == Wrap(Link, x)
  {
    assert Wrap(Link, x) + [] == Wrap(Link, x);
    assert '\n' !in Wrap(Link, x);
    ReplaceCharAbsent(Wrap(Link, x), '\n', "<br>");
  }

  // ---------------------------------------------------------------------
  // Latin italics

  predicate IsAsciiLetter(c: char)
  {
    'a' <= c <= 'z' || 'A' <= c <= 'Z'
  }

  /** The characters Python's `\w` accepts, restricted to the scripts a
      Ukrainian slide uses: ASCII letters and digits, `_`, the letters and
      digits of Latin-1, Latin Extended-A and -B, the Cyrillic letters and
      the modifier apostrophe U+02BC. */
  predicate IsWordChar(c: char)
  {
    var n := c as int;
    IsAsciiLetter(c) || ('0' <= c <= '9') || c == '_'
    || n == 0xAA || n == 0xB2 || n == 0xB3 || n == 0xB5 || n == 0xB9 || n == 0xBA
    || (0xBC <= n <= 0xBE) || (0xC0 <= n <= 0xD6) || (0xD8 <= n <= 0xF6)
    || (0xF8 <= n <= 0x24F) || n == 0x2BC
    || (0x400 <= n <= 0x481) || (0x48A <= n <= 0x4FF)
  }

  function Span(word: string): string
  {
    "<span class=\"italic\">" + word + "</span>"
  }

  /** Number of ASCII letters at the start of `s`. */
  function AsciiRun(s: string): (n: nat)
    ensures n <= |s| && (n == |s| || !IsAsciiLetter(s[n]))
  {
    if s == [] || !IsAsciiLetter(s[0]) then 0 else 1 + AsciiRun(s[1..])
  }

  lemma {:induction false} AsciiRunLetters(s: string)
    ensures forall k :: 0 <= k < AsciiRun(s) ==> IsAsciiLetter(s[k])
  {
    if s != [] && IsAsciiLetter(s[0]) {
      AsciiRunLetters(s[1..]);
      forall k | 0 < k < AsciiRun(s) ensures IsAsciiLetter(s[k]) {
        assert s[k] == s[1..][k - 1];
      }
    }
  }

  /** Number of word characters at the start of `s`. */
  function WordRun(s: string): (n: nat)
    ensures n <= |s| && (n == |s| || !IsWordChar(s[n]))
  {
    if s == [] || !IsWordChar(s[0]) then 0 else 1 + WordRun(s[1..])
  }

  lemma {:induction false} WordRunWords(s: string)
    ensures forall k :: 0 <= k < WordRun(s) ==> IsWordChar(s[k])
  {
    if s != [] && IsWordChar(s[0]) {
      WordRunWords(s[1..]);
      forall k | 0 < k < WordRun(s) ensures IsWordChar(s[k]) {
        assert s[k] == s[1..][k - 1];
      }
    }
  }

  /** `re.sub(r'\b[a-zA-Z]{2,}\b', ...)`; `prevWord` says whether the
      character before `s` is a word character. A match starts at a word
      boundary on an ASCII letter, takes the longest run of ASCII letters,
      which must hold at least two, and must end at a word boundary. */
  function Italicize(s: string, prevWord: bool): string
    decreases |s|
  {
    if s == [] then []
    else
      var n := AsciiRun(s);
      if !prevWord && n >= 2 && (n == |s| || !IsWordChar(s[n])) then
        Span(s[..n]) + Italicize(s[n..], true)
      else
        [s[0]] + Italicize(s[1..], IsWordChar(s[0]))
  }

  /** `process_latin_italic` */
  function ProcessLatinItalic(text: string): string
  {
    Italicize(text, false)
  }

  predicate AllAsciiLetters(w: string)
  {
    forall k :: 0 <= k < |w| ==> IsAsciiLetter(w[k])
  }

  /** The result described by whole words: the text is cut into maximal runs
      of word characters and single other characters, and exactly the runs
      made of two or more ASCII letters are wrapped. */
  function ItalicRef(s: string): string
    decreases |s|
  {
    if s == [] then []
    else if !IsWordChar(s[0]) then [s[0]] + ItalicRef(s[1..])
    else
      var n := WordRun(s);
      var word := s[..n];
      (if n >= 2 && AllAsciiLetters(word) then Span(word) else word) + ItalicRef(s[n..])
  }

  /** Inside a word nothing can match: the word is copied. */
  lemma {:induction false} CopyWord(u: string, k: nat)
    requires k <= |u| && forall i :: 0 <= i < k ==> IsWordChar(u[i])
    ensures Italicize(u, true) == u[..k] + Italicize(u[k..], true)
  {
    if k > 0 {
      var v := u[1..];
      assert IsWordChar(u[0]);
      ItalicizeCopies(u, true);
      forall i | 0 <= i < k - 1 ensures IsWordChar(v[i]) {
        assert v[i] == u[i + 1];
      }
      CopyWord(v, k - 1);
      DropHead(u, k);
      AppendAssoc([u[0]], u[1..k], Italicize(u[k..], true));
    }
  }

  /** Where no word starts, the first character is copied. */
  lemma {:induction false} ItalicizeCopies(u: string, prevWord: bool)
    requires u != [] && (prevWord || AsciiRun(u) < 2)
    ensures Italicize(u, prevWord) == [u[0]] + Italicize(u[1..], IsWordChar(u[0]))
  {
  }

  lemma {:induction false} DropHead(u: string, k: nat)
    requires 0 < k <= |u|
    ensures u[1..][..k - 1] == u[1..k] && u[1..][k - 1..] == u[k..] && u[..k] == [u[0]] + u[1..k]
  {
  }

  /** Before a character that is not a word character, what came before it
      makes no difference. */
  lemma {:induction false} AfterWord(t: string)
    requires t == [] || !IsWordChar(t[0])
    ensures Italicize(t, true) == Italicize(t, false)
  {
  }

  /** The scanner wraps exactly the all-ASCII words of two or more letters. */
  lemma {:induction false} ItalicizeIsByWords(s: string)
    ensures Italicize(s, false) == ItalicRef(s)
    decreases |s|, 1
  {
    if s != [] {
      if !IsWordChar(s[0]) {
        ItalicizeIsByWords(s[1..]);
      } else {
        ItalicizeWord(s);
      }
    }
  }

  lemma {:induction false} ItalicizeWord(s: string)
    requires s != [] && IsWordChar(s[0])
    ensures Italicize(s, false) == ItalicRef(s)
    decreases |s|, 0
  {
    var n := WordRun(s);
    var t := s[n..];
    AfterWord(t);
    ItalicizeIsByWords(t);
    if n >= 2 && AllAsciiLetters(s[..n]) {
      WrappedWord(s);
    } else {
      CopiedWord(s);
    }
  }

  /** A word of two or more ASCII letters is wrapped whole. */
  lemma {:induction false} WrappedWord(s: string)
    requires WordRun(s) >= 2 && AllAsciiLetters(s[..WordRun(s)])
    ensures Italicize(s, false) == Span(s[..WordRun(s)]) + Italicize(s[WordRun(s)..], true)
  {
    var n := WordRun(s);
    forall k | 0 <= k < n ensures IsAsciiLetter(s[k]) {
      assert s[..n][k] == s[k];
    }
    AsciiRunAtLeast(s, n);
  }

  /** Any other word is copied whole. */
  lemma {:induction false} CopiedWord(s: string)
    requires s != [] && IsWordChar(s[0])
    requires !(WordRun(s) >= 2 && AllAsciiLetters(s[..WordRun(s)]))
    ensures Italicize(s, false) == s[..WordRun(s)] + Italicize(s[WordRun(s)..], true)
  {
    NoMatchInWord(s);
    CopyRestOfWord(s);
  }

  lemma {:induction false} CopyRestOfWord(s: string)
    requires s != [] && IsWordChar(s[0])
    ensures [s[0]] + Italicize(s[1..], true) == s[..WordRun(s)] + Italicize(s[WordRun(s)..], true)
  {
    WordRunWords(s);
    CopyWord(s, WordRun(s));
    assert Italicize(s, true) == [s[0]] + Italicize(s[1..], true);
  }

  /** At the start of such a word the pattern does not match. */
  lemma {:induction false} NoMatchInWord(s: string)
    requires s != [] && IsWordChar(s[0])
    requires !(WordRun(s) >= 2 && AllAsciiLetters(s[..WordRun(s)]))
    ensures Italicize(s, false) == [s[0]] + Italicize(s[1..], true)
  {
    var n := WordRun(s);
    var m := AsciiRun(s);
    AsciiRunWithinWord(s);
    WordRunWords(s);
    AsciiRunLetters(s);
    assert AllAsciiLetters(s[..m]) by {
      forall k | 0 <= k < m ensures IsAsciiLetter(s[..m][k]) {
        assert s[..m][k] == s[k];
      }
    }
    assert m >= 2 ==> m < n && IsWordChar(s[m]);
  }

  /** An ASCII letter is a word character, so the ASCII run of a text never
      reaches past its word run. */
  lemma {:induction false} AsciiRunWithinWord(s: string)
    ensures AsciiRun(s) <= WordRun(s)
  {
    if s != [] && IsAsciiLetter(s[0]) {
      AsciiRunWithinWord(s[1..]);
    }
  }

  lemma {:induction false} AsciiRunAtLeast(s: string, n: nat)
    requires n <= |s| && forall k :: 0 <= k < n ==> IsAsciiLetter(s[k])
    requires n == |s| || !IsWordChar(s[n])
    ensures AsciiRun(s) == n
  {
    if n > 0 {
      AsciiRunAtLeast(s[1..], n - 1);
    }
  }

  /** The pass adds markup around words and nothing else: a character that
      neither the text nor the wrapper holds does not appear. */
  lemma {:induction false} ItalicizeKeepsOut(s: string, prevWord: bool, c: char)
    requires c !in s && c !in Span([])
    ensures c !in Italicize(s, prevWord)
    decreases |s|
  {
    if s != [] {
      var n := AsciiRun(s);
      if !prevWord && n >= 2 && (n == |s| || !IsWordChar(s[n])) {
        assert c !in s[..n];
        assert Span(s[..n]) == "<span class=\"italic\">" + s[..n] + "</span>";
        assert Span([]) == "<span class=\"italic\">" + "</span>";
        ItalicizeKeepsOut(s[n..], true, c);
      } else {
        ItalicizeKeepsOut(s[1..], IsWordChar(s[0]), c);
      }
    }
  }

  /** The wrapper holds no line break. */
  lemma {:induction false} SpanOneLine()
    ensures '\n' !in Span([])
  {
    assert Span([]) == "<span class=\"italic\">" + "</span>";
  }

  /** Tag names of two or more letters are wrapped too: the pass runs on the
      HTML that `process_text` produced, so `<br>` becomes
      `<` + a wrapped `br` + `>`. */
  lemma {:induction false} TagNamesWrapped(before: char, name: string, after: char)
    requires !IsWordChar(before) && !IsWordChar(after)
    requires |name| >= 2 && AllAsciiLetters(name)
    ensures ProcessLatinItalic([before] + name + [after]) == [before] + Span(name) + [after]
  {
    var u := name + [after];
    var s := [before] + u;
    AppendAssoc([before], name, [after]);
    ItalicizeIsByWords(s);
    ConsTail(before, u);
    NameThenOther(name, after);
    assert ItalicRef(s) == [before] + ItalicRef(u);
    AppendAssoc([before], Span(name), [after]);
  }

  /** A name followed by a character that is not a word character is
      wrapped whole. */
  lemma {:induction false} NameThenOther(name: string, after: char)
    requires !IsWordChar(after)
    requires |name| >= 2 && AllAsciiLetters(name)
    ensures ItalicRef(name + [after]) == Span(name) + [after]
  {
    var u := name + [after];
    forall k | 0 <= k < |name| ensures IsWordChar(u[k]) {
      assert u[k] == name[k] && IsAsciiLetter(name[k]);
    }
    assert u[|name|] == after;
    WordRunAtLeast(u, |name|);
    assert u[..|name|] == name;
    assert u[|name|..] == [after];
    assert ItalicRef([after]) == [after] + ItalicRef([]);
  }

  lemma {:induction false} WordRunAtLeast(s: string, n: nat)
    requires n <= |s| && forall k :: 0 <= k < n ==> IsWordChar(s[k])
    requires n == |s| || !IsWordChar(s[n])
    ensures WordRun(s) == n
  {
    if n > 0 {
      WordRunAtLeast(s[1..], n - 1);
    }
  }
}
