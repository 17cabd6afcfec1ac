/**
 * `escape_html` of tebook/renderer.py: five whole-string replacements,
 * `&` first, so that the ampersands the later replacements introduce are
 * not escaped again. `EscapeChars`, which escapes one character at a time,
 * is the reference it is proved equal to; `Unescape` reads the result back.
 */
module Escape {
  import opened Text

  /** The entity a special character becomes; any other character stays. */
  function EscapeChar(c: char): (r: string)
    ensures |r| >= 1 && (r[0] == '&' <==> c in "&<>\"'")
  {
    if c == '&' then "&amp;"
    else if c == '<' then "&lt;"
    else if c == '>' then "&gt;"
    else if c == '"' then "&quot;"
    else if c == '\'' then "&#39;"
    else [c]
  }

  /** Escaping character by character. */
  function EscapeChars(s: string): string
  {
    if s == [] then [] else EscapeChar(s[0]) + EscapeChars(s[1..])
  }

  /** `escape_html` */
  function EscapeHtml(text: string): string
  {
    var amp := ReplaceChar(text, '&', "&amp;");
    var lt := ReplaceChar(amp, '<', "&lt;");
    var gt := ReplaceChar(lt, '>', "&gt;");
    var quot := ReplaceChar(gt, '"', "&quot;");
    ReplaceChar(quot, '\'', "&#39;")
  }

  /** The escaped text holds none of the four markup characters. */
  lemma {:induction false} EscapeHtmlSafe(text: string)
    ensures var r := EscapeHtml(text);
      '<' !in r && '>' !in r && '"' !in r && '\'' !in r
  {
    var amp := ReplaceChar(text, '&', "&amp;");
    var lt := ReplaceChar(amp, '<', "&lt;");
    var gt := ReplaceChar(lt, '>', "&gt;");
    var quot := ReplaceChar(gt, '"', "&quot;");
    var r := ReplaceChar(quot, '\'', "&#39;");
    ReplaceCharRemoves(amp, '<', "&lt;");
    ReplaceCharKeepsOut(lt, '>', "&gt;", '<');
    ReplaceCharRemoves(lt, '>', "&gt;");
    ReplaceCharKeepsOut(gt, '"', "&quot;", '<');
    ReplaceCharKeepsOut(gt, '"', "&quot;", '>');
    ReplaceCharRemoves(gt, '"', "&quot;");
    ReplaceCharKeepsOut(quot, '\'', "&#39;", '<');
    ReplaceCharKeepsOut(quot, '\'', "&#39;", '>');
    ReplaceCharKeepsOut(quot, '\'', "&#39;", '"');
    ReplaceCharRemoves(quot, '\'', "&#39;");
  }

  /** Escaping distributes over concatenation. */
  lemma {:induction false} EscapeHtmlAppend(a: string, b: string)
    ensures EscapeHtml(a + b) == EscapeHtml(a) + EscapeHtml(b)
  {
    var a1 := ReplaceChar(a, '&', "&amp;");
    var b1 := ReplaceChar(b, '&', "&amp;");
    ReplaceCharAppend(a, b, '&', "&amp;");
    var a2 := ReplaceChar(a1, '<', "&lt;");
    var b2 := ReplaceChar(b1, '<', "&lt;");
    ReplaceCharAppend(a1, b1, '<', "&lt;");
    var a3 := ReplaceChar(a2, '>', "&gt;");
    var b3 := ReplaceChar(b2, '>', "&gt;");
    ReplaceCharAppend(a2, b2, '>', "&gt;");
    var a4 := ReplaceChar(a3, '"', "&quot;");
    var b4 := ReplaceChar(b3, '"', "&quot;");
    ReplaceCharAppend(a3, b3, '"', "&quot;");
    ReplaceCharAppend(a4, b4, '\'', "&#39;");
  }

  lemma {:induction false} ReplaceOne(c: char, d: char, rep: string)
    ensures ReplaceChar([c], d, rep) == if c == d then rep else [c]
  {
    assert [c][1..] == [];
  }

  /** On one character the five passes give that character's entity: the
      entities the first pass writes contain none of the later characters. */
  lemma {:induction false} EscapeHtmlChar(c: char)
    ensures EscapeHtml([c]) == EscapeChar(c)
  {
    ReplaceOne(c, '&', "&amp;");
    if c == '&' {
      EntityFree(c, '&', "&amp;");
      LaterPassesKeep(ReplaceChar([c], '&', "&amp;"));
    } else {
      ReplaceOne(c, '<', "&lt;");
      if c == '<' {
        EntityFree(c, '<', "&lt;");
        LaterPassesKeep(ReplaceChar([c], '<', "&lt;"));
      } else {
        ReplaceOne(c, '>', "&gt;");
        if c == '>' {
          EntityFree(c, '>', "&gt;");
          LaterPassesKeep(ReplaceChar([c], '>', "&gt;"));
        } else {
          ReplaceOne(c, '"', "&quot;");
          if c == '"' {
            EntityFree(c, '"', "&quot;");
            LaterPassesKeep(ReplaceChar([c], '"', "&quot;"));
          } else {
            ReplaceOne(c, '\'', "&#39;");
          }
        }
      }
    }
  }

  /** The entities contain none of the characters the passes replace after `&`. */
  lemma {:induction false} EntityFree(c: char, d: char, entity: string)
    requires c == d && entity == EscapeChar(c) && c in "&<>\""
    ensures var x := ReplaceChar([c], d, entity);
      '<' !in x && '>' !in x && '"' !in x && '\'' !in x
  {
    ReplaceOne(c, d, entity);
  }

  /** A text without the four markup characters goes through the passes that
      follow the `&` pass unchanged, whichever of them are still to come. */
  lemma {:induction false} LaterPassesKeep(x: string)
    requires '<' !in x && '>' !in x && '"' !in x && '\'' !in x
    ensures ReplaceChar(x, '<', "&lt;") == x
    ensures ReplaceChar(x, '>', "&gt;") == x
    ensures ReplaceChar(x, '"', "&quot;") == x
    ensures ReplaceChar(x, '\'', "&#39;") == x
  {
    ReplaceCharAbsent(x, '<', "&lt;");
    ReplaceCharAbsent(x, '>', "&gt;");
    ReplaceCharAbsent(x, '"', "&quot;");
    ReplaceCharAbsent(x, '\'', "&#39;");
  }

  /** The sequence of replacements escapes each character on its own: no
      entity is escaped twice. */
  lemma {:induction false} EscapeHtmlIsCharwise(s: string)
    ensures EscapeHtml(s) == EscapeChars(s)
  {
    if s != [] {
      assert s == [s[0]] + s[1..];
      EscapeHtmlAppend([s[0]], s[1..]);
      EscapeHtmlChar(s[0]);
      EscapeHtmlIsCharwise(s[1..]);
    } else {
      assert ReplaceChar(s, '&', "&amp;") == [];
    }
  }

  /** The character an entity stands for starts at `i`. */
  predicate EntityAt(r: string, i: nat)
    requires i <= |r|
  {
    var t := r[i..];
    StartsWith(t, "&amp;") || StartsWith(t, "&lt;") || StartsWith(t, "&gt;")
    || StartsWith(t, "&quot;") || StartsWith(t, "&#39;")
  }

  /** Every `&` of the escaped text begins an entity. */
  lemma {:induction false} AmpersandsBeginEntities(s: string)
    ensures var r := EscapeHtml(s);
      forall i :: 0 <= i < |r| && r[i] == '&' ==> EntityAt(r, i)
  {
    EscapeHtmlIsCharwise(s);
    CharwiseAmpersands(s);
  }

  lemma {:induction false} CharwiseAmpersands(s: string)
    ensures forall i :: 0 <= i < |EscapeChars(s)| && EscapeChars(s)[i] == '&' ==> EntityAt(EscapeChars(s), i)
  {
    if s != [] {
      var x := EscapeChar(s[0]);
      var rest := EscapeChars(s[1..]);
      var r := x + rest;
      CharwiseAmpersands(s[1..]);
      forall i | 0 <= i < |r| && r[i] == '&' ensures EntityAt(r, i) {
        if i >= |x| {
          assert r[i] == rest[i - |x|];
          assert EntityAt(rest, i - |x|);
          assert r[i..] == rest[i - |x|..];
        } else {
          assert x[i] == '&';
          EntityChar(s[0], i);
          EntityStarts(s[0], rest);
        }
      }
    }
  }

  /** Within one escaped character the only `&` is the first one, and it
      starts the whole entity. */
  lemma {:induction false} EntityChar(c: char, i: nat)
    requires i < |EscapeChar(c)| && EscapeChar(c)[i] == '&'
    ensures i == 0 && c in "&<>\"'"
  {
  }

  lemma {:induction false} EntityStarts(c: char, rest: string)
    requires c in "&<>\"'"
    ensures EntityAt(EscapeChar(c) + rest, 0)
  {
    var t := EscapeChar(c) + rest;
    Prefix(EscapeChar(c), rest);
    assert t[0..] == t;
  }

  /** Reads the entities back, left to right. */
  function Unescape(s: string): string
  {
    if s == [] then []
    else if StartsWith(s, "&amp;") then "&" + Unescape(s[5..])
    else if StartsWith(s, "&lt;") then "<" + Unescape(s[4..])
    else if StartsWith(s, "&gt;") then ">" + Unescape(s[4..])
    else if StartsWith(s, "&quot;") then "\"" + Unescape(s[6..])
    else if StartsWith(s, "&#39;") then "'" + Unescape(s[5..])
    else [s[0]] + Unescape(s[1..])
  }

  /** `t` does not start with `p` when they differ at `i`. */
  lemma {:induction false} Mismatch(t: string, p: string, i: nat)
    requires i < |p| && i < |t| && t[i] != p[i]
    ensures !StartsWith(t, p)
  {
    if |p| <= |t| {
      assert t[..|p|][i] == t[i];
    }
  }

  lemma {:induction false} Prefix(x: string, rest: string)
    ensures StartsWith(x + rest, x) && (x + rest)[|x|..] == rest
  {
    assert (x + rest)[..|x|] == x;
  }

  lemma {:induction false} UnescapeStep(c: char, rest: string)
    ensures Unescape(EscapeChar(c) + rest) == [c] + Unescape(rest)
  {
    var x := EscapeChar(c);
    var t := x + rest;
    Prefix(x, rest);
    if c == '&' {
    } else if c == '<' {
      Mismatch(t, "&amp;", 1);
    } else if c == '>' {
      Mismatch(t, "&amp;", 1);
      Mismatch(t, "&lt;", 1);
    } else if c == '"' {
      Mismatch(t, "&amp;", 1);
      Mismatch(t, "&lt;", 1);
      Mismatch(t, "&gt;", 1);
    } else if c == '\'' {
      Mismatch(t, "&amp;", 1);
      Mismatch(t, "&lt;", 1);
      Mismatch(t, "&gt;", 1);
      Mismatch(t, "&quot;", 1);
    } else {
      Mismatch(t, "&amp;", 0);
      Mismatch(t, "&lt;", 0);
      Mismatch(t, "&gt;", 0);
      Mismatch(t, "&quot;", 0);
      Mismatch(t, "&#39;", 0);
    }
  }

  /** Unescaping the escaped text gives the text back. */
  lemma {:induction false} EscapeRoundTrip(s: string)
    ensures Unescape(EscapeHtml(s)) == s
  {
    EscapeHtmlIsCharwise(s);
    CharwiseRoundTrip(s);
  }

  lemma {:induction false} CharwiseRoundTrip(s: string)
    ensures Unescape(EscapeChars(s)) == s
  {
    if s != [] {
      UnescapeStep(s[0], EscapeChars(s[1..]));
      CharwiseRoundTrip(s[1..]);
    }
  }
}
