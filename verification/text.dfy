/**
 * String primitives of the Python runtime that the draft pipeline relies on:
 * `str.isspace`, `str.strip`, `str.split(sep)` with a one-character separator,
 * `sep.join`, `''.join`, `str.replace` of one character, `str.startswith`,
 * and the decimal rendering of a non-negative `int` in an f-string.
 */
module Text {

  datatype Option<T> = None | Some(value: T)

  /** Python's `str.isspace()` for one character (the Unicode White_Space
      characters that Python's `strip()` and the regex class `\s` accept). */
  predicate IsSpace(c: char)
  {
    var n := c as int;
    (9 <= n <= 13) || (28 <= n <= 32) || n == 0x85 || n == 0xA0 || n == 0x1680
    || (0x2000 <= n <= 0x200A) || n == 0x2028 || n == 0x2029 || n == 0x202F
    || n == 0x205F || n == 0x3000
  }

  predicate AllSpace(s: string)
  {
    forall k :: 0 <= k < |s| ==> IsSpace(s[k])
  }

  /** No whitespace at either end: what `strip()` leaves behind. */
  predicate IsStripped(s: string)
  {
    s == [] || (!IsSpace(s[0]) && !IsSpace(s[|s| - 1]))
  }

  /** Number of whitespace characters at the start of `s`. */
  function LeadCount(s: string): (n: nat)
    ensures n <= |s|
    ensures n == |s| || !IsSpace(s[n])
  {
    if s == [] || !IsSpace(s[0]) then 0 else 1 + LeadCount(s[1..])
  }

  lemma {:induction false} LeadCountSpaces(s: string)
    ensures forall k :: 0 <= k < LeadCount(s) ==> IsSpace(s[k])
  {
    if s != [] && IsSpace(s[0]) {
      LeadCountSpaces(s[1..]);
      forall k | 0 < k < LeadCount(s) ensures IsSpace(s[k]) {
        assert s[k] == s[1..][k - 1];
      }
    }
  }

  /** Number of whitespace characters at the end of `s`. */
  function TrailCount(s: string): (n: nat)
    ensures n <= |s|
    ensures n == |s| || !IsSpace(s[|s| - 1 - n])
  {
    if s == [] || !IsSpace(s[|s| - 1]) then 0 else 1 + TrailCount(s[..|s| - 1])
  }

  lemma {:induction false} TrailCountSpaces(s: string)
    ensures forall k :: |s| - TrailCount(s) <= k < |s| ==> IsSpace(s[k])
  {
    if s != [] && IsSpace(s[|s| - 1]) {
      var t := s[..|s| - 1];
      TrailCountSpaces(t);
      forall k | |s| - TrailCount(s) <= k < |s| ensures IsSpace(s[k]) {
        if k < |s| - 1 { assert s[k] == t[k]; }
      }
    }
  }

  /** Python's `str.strip()`: what is left after removing the whitespace at
      both ends. */
  function Strip(s: string): (r: string)
    ensures IsStripped(r)
    ensures |r| <= |s|
  {
    var i := LeadCount(s);
    if i == |s| then []
    else
      TrailAfterLead(s);
      s[i..|s| - TrailCount(s)]
  }

  /** The whitespace at the end stops short of the first other character. */
  lemma {:induction false} TrailAfterLead(s: string)
    requires LeadCount(s) < |s|
    ensures LeadCount(s) < |s| - TrailCount(s)
  {
    TrailCountSpaces(s);
  }

  /** Strip removes whitespace from the ends and nothing else: the result is
      the contiguous middle of `s`, all of what surrounds it is whitespace,
      and it is empty exactly when `s` is all whitespace. */
  lemma {:induction false} StripShape(s: string)
    ensures var r := Strip(s); var i := LeadCount(s);
      && i + |r| <= |s|
      && r == s[i..i + |r|]
      && AllSpace(s[..i]) && AllSpace(s[i + |r|..])
      && (r == [] <==> AllSpace(s))
  {
    if LeadCount(s) == |s| {
      StripShapeBlank(s);
    } else {
      StripShapeText(s);
    }
  }

  lemma {:induction false} StripShapeBlank(s: string)
    requires LeadCount(s) == |s|
    ensures Strip(s) == [] && AllSpace(s)
  {
    LeadCountSpaces(s);
  }

  lemma {:induction false} StripShapeText(s: string)
    requires LeadCount(s) < |s|
    ensures var r := Strip(s); var i := LeadCount(s);
      && i + |r| <= |s|
      && r == s[i..i + |r|]
      && AllSpace(s[..i]) && AllSpace(s[i + |r|..])
      && r != [] && !AllSpace(s)
  {
    var i := LeadCount(s);
    var n := TrailCount(s);
    StripByCounts(s, i, n);
    LeadAllSpace(s);
    TrailAllSpace(s);
    assert !IsSpace(s[i]);
  }

  lemma {:induction false} LeadAllSpace(s: string)
    ensures AllSpace(s[..LeadCount(s)])
  {
    LeadCountSpaces(s);
    SpacesUpTo(s, LeadCount(s));
  }

  lemma {:induction false} TrailAllSpace(s: string)
    ensures AllSpace(s[|s| - TrailCount(s)..])
  {
    TrailCountSpaces(s);
    SpacesFrom(s, |s| - TrailCount(s));
  }

  lemma {:induction false} SpacesUpTo(s: string, i: nat)
    requires i <= |s| && forall k :: 0 <= k < i ==> IsSpace(s[k])
    ensures AllSpace(s[..i])
  {
    forall k | 0 <= k < i ensures IsSpace(s[..i][k]) {
      assert s[..i][k] == s[k];
    }
  }

  lemma {:induction false} SpacesFrom(s: string, j: nat)
    requires j <= |s| && forall k :: j <= k < |s| ==> IsSpace(s[k])
    ensures AllSpace(s[j..])
  {
    forall k | 0 <= k < |s| - j ensures IsSpace(s[j..][k]) {
      assert s[j..][k] == s[j + k];
    }
  }

  /** A character absent from `s` is absent from its stripped form. */
  lemma {:induction false} StripKeepsOut(s: string, c: char)
    requires c !in s
    ensures c !in Strip(s)
  {
    StripShape(s);
  }

  /** Stripping a string that is already stripped changes nothing, so
      stripping twice is the same as stripping once. */
  lemma {:induction false} StripIdempotent(s: string)
    ensures Strip(Strip(s)) == Strip(s)
  {
    StripOfStripped(Strip(s));
  }

  lemma {:induction false} StripOfStripped(t: string)
    requires IsStripped(t)
    ensures Strip(t) == t
  {
    if t != [] {
      assert LeadCount(t) == 0;
      assert TrailCount(t) == 0;
    }
  }

  /** Removing the leading whitespace first does not change the stripped text. */
  lemma {:induction false} StripAfterLead(s: string)
    ensures Strip(s[LeadCount(s)..]) == Strip(s)
  {
    if LeadCount(s) < |s| {
      StripAfterLeadWithText(s);
    } else {
      assert s[LeadCount(s)..] == [];
    }
  }

  lemma {:induction false} StripAfterLeadWithText(s: string)
    requires LeadCount(s) < |s|
    ensures Strip(s[LeadCount(s)..]) == Strip(s)
  {
    var i := LeadCount(s);
    var n := TrailCount(s);
    StripOfRest(s, i, n);
    StripByCounts(s, i, n);
    SliceOfSuffix(s, i, n);
  }

  lemma {:induction false} StripOfRest(s: string, i: nat, n: nat)
    requires i == LeadCount(s) && i < |s| && n == TrailCount(s)
    ensures i + n <= |s| && Strip(s[i..]) == s[i..][0..|s[i..]| - n]
  {
    LeadCountOfRest(s);
    TrailCountSuffix(s, i);
    StripByCounts(s[i..], 0, n);
  }

  lemma {:induction false} SliceOfSuffix(s: string, i: nat, n: nat)
    requires i + n <= |s|
    ensures s[i..][0..|s[i..]| - n] == s[i..|s| - n]
  {
  }

  lemma {:induction false} LeadCountOfRest(s: string)
    requires LeadCount(s) < |s|
    ensures LeadCount(s[LeadCount(s)..]) == 0
  {
    assert s[LeadCount(s)..][0] == s[LeadCount(s)];
  }

  /** The stripped text lies between the two runs of whitespace. */
  lemma {:induction false} StripByCounts(s: string, i: nat, n: nat)
    requires i == LeadCount(s) && i < |s| && n == TrailCount(s)
    ensures i <= |s| - n && Strip(s) == s[i..|s| - n]
  {
    TrailAfterLead(s);
  }

  lemma {:induction false} TrailCountSuffix(s: string, i: nat)
    requires i < |s| && !IsSpace(s[i])
    ensures TrailCount(s[i..]) == TrailCount(s)
    decreases |s|
  {
    if IsSpace(s[|s| - 1]) {
      assert i < |s| - 1;
      assert s[i..][..|s[i..]| - 1] == s[..|s| - 1][i..];
      TrailCountSuffix(s[..|s| - 1], i);
    }
  }

  predicate StartsWith(s: string, prefix: string)
  {
    |prefix| <= |s| && s[..|prefix|] == prefix
  }

  /** Number of occurrences of `c` in `s`. */
  function CountChar(s: string, c: char): (n: nat)
    ensures n <= |s|
    ensures n == 0 <==> c !in s
  {
    if s == [] then 0 else (if s[0] == c then 1 else 0) + CountChar(s[1..], c)
  }

  lemma {:induction false} CountCharAppend(a: string, b: string, c: char)
    ensures CountChar(a + b, c) == CountChar(a, c) + CountChar(b, c)
  {
    if a != [] {
      assert (a + b)[1..] == a[1..] + b;
      CountCharAppend(a[1..], b, c);
    } else {
      assert a + b == b;
    }
  }

  /** Index of the first occurrence of `c` in `s`, which must occur. */
  function IndexOf(s: string, c: char): (i: nat)
    requires c in s
    ensures i < |s| && s[i] == c && c !in s[..i]
  {
    if s[0] == c then 0 else 1 + IndexOf(s[1..], c)
  }

  /** Python's `sep.join(parts)`. */
  function Join(parts: seq<string>, sep: string): string
  {
    if |parts| == 0 then ""
    else if |parts| == 1 then parts[0]
    else parts[0] + sep + Join(parts[1..], sep)
  }

  /** The joined text starts with the first part. */
  lemma {:induction false} JoinFirst(parts: seq<string>, sep: string)
    requires parts != []
    ensures parts[0] <= Join(parts, sep)
  {
    if |parts| > 1 {
      assert (parts[0] + sep + Join(parts[1..], sep))[..|parts[0]|] == parts[0];
    }
  }

  /** Python's `s.split(sep)` for a one-character separator: the pieces
      between consecutive separators, one more piece than separators, and
      joining them back with the separator gives `s` again. */
  function Split(s: string, sep: char): (parts: seq<string>)
    ensures |parts| == CountChar(s, sep) + 1
    ensures forall k :: 0 <= k < |parts| ==> sep !in parts[k]
    ensures Join(parts, [sep]) == s
    decreases |s|
  {
    if sep !in s then [s]
    else
      var i := IndexOf(s, sep);
      var rest := Split(s[i + 1..], sep);
      SplitAround(s, sep, i, rest);
      [s[..i]] + rest
  }

  /** A character that occurs at `k` and nowhere before is first found at `k`. */
  lemma {:induction false} IndexOfFirst(u: string, c: char, k: nat)
    requires k < |u| && u[k] == c && c !in u[..k]
    ensures IndexOf(u, c) == k
  {
    var j := IndexOf(u, c);
    NotBefore(u, c, k, j);
    NotBefore(u, c, j, k);
  }

  /** A character absent from the first `k` elements is not at any `j < k`. */
  lemma {:induction false} NotBefore(u: string, c: char, k: nat, j: nat)
    requires k <= |u| && c !in u[..k] && j < |u|
    ensures j < k ==> u[j] != c
  {
    if j < k {
      assert u[..k][j] == u[j];
    }
  }

  /** Lines without the separator, joined with it, split back into those
      same lines: the inverse of the round trip `Split` promises. */
  lemma {:induction false} SplitJoin(lines: seq<string>, sep: char)
    requires lines != [] && forall line <- lines :: sep !in line
    ensures Split(Join(lines, [sep]), sep) == lines
    decreases |lines|
  {
    if |lines| > 1 {
      var first := lines[0];
      var tail := Join(lines[1..], [sep]);
      var s := Join(lines, [sep]);
      assert s == first + [sep] + tail;
      assert s[..|first|] == first && s[|first| + 1..] == tail;
      IndexOfFirst(s, sep, |first|);
      SplitJoin(lines[1..], sep);
      assert lines == [first] + lines[1..];
    }
  }

  /** One step of `Split`: the piece before the first separator, then the
      pieces of what follows it. */
  lemma {:induction false} SplitAround(s: string, sep: char, i: nat, rest: seq<string>)
    requires i < |s| && s[i] == sep && sep !in s[..i]
    requires |rest| == CountChar(s[i + 1..], sep) + 1
    requires forall k :: 0 <= k < |rest| ==> sep !in rest[k]
    requires Join(rest, [sep]) == s[i + 1..]
    ensures var parts := [s[..i]] + rest;
      && |parts| == CountChar(s, sep) + 1
      && (forall k :: 0 <= k < |parts| ==> sep !in parts[k])
      && Join(parts, [sep]) == s
  {
    var parts := [s[..i]] + rest;
    assert s == s[..i] + [sep] + s[i + 1..];
    CountCharAppend(s[..i] + [sep], s[i + 1..], sep);
    CountCharAppend(s[..i], [sep], sep);
    assert parts[1..] == rest;
    assert Join(parts, [sep]) == s[..i] + [sep] + Join(rest, [sep]);
    forall k | 0 <= k < |parts| ensures sep !in parts[k] {
      if k > 0 { assert parts[k] == rest[k - 1]; }
    }
  }

  /** The first piece of a split starts where the text does, unless the
      text starts with the separator. */
  lemma {:induction false} SplitFirst(s: string, sep: char)
    requires s != [] && s[0] != sep
    ensures Split(s, sep)[0] != [] && Split(s, sep)[0][0] == s[0]
  {
  }

  /** Equal parts make equal concatenations. */
  lemma {:induction false} AppendCongruence<T>(x: seq<T>, a: seq<T>, a2: seq<T>, b: seq<T>, b2: seq<T>)
    requires x == a + b && a == a2 && b == b2
    ensures x == a2 + b2
  {
  }

  /** Sequence concatenation is associative. */
  lemma {:induction false} AppendAssoc<T>(a: seq<T>, b: seq<T>, c: seq<T>)
    ensures a + b + c == a + (b + c)
  {
  }

  lemma {:induction false} AppendEmpty<T>(s: seq<T>)
    ensures [] + s == s && s + [] == s
  {
  }

  lemma {:induction false} Pair<T>(x: T, y: T)
    ensures [x] + [y] == [x, y]
  {
  }

  /** Python's `''.join(parts)`, and the flattening of a list of lists. */
  function Concat<T>(parts: seq<seq<T>>): seq<T>
  {
    if parts == [] then [] else parts[0] + Concat(parts[1..])
  }

  lemma {:induction false} ConcatAppend<T>(a: seq<seq<T>>, b: seq<seq<T>>)
    ensures Concat(a + b) == Concat(a) + Concat(b)
  {
    if a == [] {
      assert a + b == b;
    } else {
      assert (a + b)[1..] == a[1..] + b;
      ConcatAppend(a[1..], b);
    }
  }

  /** Python's `s.replace(c, rep)` for a one-character pattern `c`. */
  function ReplaceChar(s: string, c: char, rep: string): string
  {
    if s == [] then ""
    else (if s[0] == c then rep else [s[0]]) + ReplaceChar(s[1..], c, rep)
  }

  /** No occurrence of `c` survives unless the replacement brings one. */
  lemma {:induction false} ReplaceCharRemoves(s: string, c: char, rep: string)
    requires c !in rep
    ensures c !in ReplaceChar(s, c, rep)
  {
    if s != [] {
      ReplaceCharRemoves(s[1..], c, rep);
    }
  }

  /** Other characters are kept out too, unless the replacement brings them. */
  lemma {:induction false} ReplaceCharKeepsOut(s: string, c: char, rep: string, e: char)
    requires e !in s && e !in rep
    ensures e !in ReplaceChar(s, c, rep)
  {
    if s != [] {
      assert e != s[0] && e !in s[1..];
      ReplaceCharKeepsOut(s[1..], c, rep, e);
    }
  }

  /** A text without `c` is left as it is. */
  lemma {:induction false} ReplaceCharAbsent(s: string, c: char, rep: string)
    requires c !in s
    ensures ReplaceChar(s, c, rep) == s
  {
    if s != [] {
      assert s[0] != c && c !in s[1..];
      ReplaceCharAbsent(s[1..], c, rep);
    }
  }

  lemma {:induction false} ReplaceCharAppend(a: string, b: string, c: char, rep: string)
    ensures ReplaceChar(a + b, c, rep) == ReplaceChar(a, c, rep) + ReplaceChar(b, c, rep)
  {
    if a == [] {
      assert a + b == b;
    } else {
      assert (a + b)[1..] == a[1..] + b;
      ReplaceCharAppend(a[1..], b, c, rep);
    }
  }

  /** `n` blanks: the indentation of an output line. */
  function Spaces(n: nat): (s: string)
    ensures |s| == n && forall k :: 0 <= k < n ==> s[k] == ' '
  {
    seq(n, _ => ' ')
  }

  predicate IsDigit(c: char)
  {
    '0' <= c <= '9'
  }

  /** Python's `f"{n}"` for a non-negative integer. */
  function NatToString(n: nat): (s: string)
    ensures |s| >= 1
    ensures forall k :: 0 <= k < |s| ==> IsDigit(s[k])
  {
    if n < 10 then [('0' as int + n) as char]
    else NatToString(n / 10) + [('0' as int + n % 10) as char]
  }

  /** The number a string of decimal digits denotes. */
  function DecimalValue(s: string): nat
    requires forall k :: 0 <= k < |s| ==> IsDigit(s[k])
  {
    if s == [] then 0
    else
      assert IsDigit(s[|s| - 1]);
      DecimalValue(s[..|s| - 1]) * 10 + (s[|s| - 1] as int - '0' as int)
  }

  /** Reading the decimal text back gives the number, so different numbers
      are never written the same way. */
  lemma {:induction false} NatToStringRoundTrip(n: nat)
    ensures DecimalValue(NatToString(n)) == n
  {
    if n >= 10 {
      var s := NatToString(n);
      assert s[..|s| - 1] == NatToString(n / 10);
      NatToStringRoundTrip(n / 10);
    }
  }

  lemma {:induction false} NatToStringInjective(m: nat, n: nat)
    requires m != n
    ensures NatToString(m) != NatToString(n)
  {
    NatToStringRoundTrip(m);
    NatToStringRoundTrip(n);
  }
}
