/**
 * `render_table` of tebook/renderer.py: the CSV body of an `@7` slide as an
 * HTML table. The lines of the stripped text that are not blank become rows,
 * stripped; each row is split at every comma and each cell is stripped and
 * escaped. The first row is the header (`th` cells), every other row holds
 * `td` cells. The output lines are joined with newlines.
 */
module Table {
  import opened Text
  import opened Escape

  const Container := Spaces(12) + "<div class='table-container'>"
  const TableOpen := Spaces(16) + "<table>"
  const RowOpen := Spaces(20) + "<tr>"
  const RowClose := Spaces(20) + "</tr>"
  const TableClose := Spaces(16) + "</table>"
  const ContainerClose := Spaces(12) + "</div>"
  /** What a body without a single non-blank line renders as. */
  const EmptyTable := Spaces(12) + "<div>Порожня таблиця</div>"

  /** The stripped lines that are not blank, in order. */
  function NonBlank(lines: seq<string>): seq<string>
  {
    if lines == [] then []
    else (if Strip(lines[0]) != [] then [Strip(lines[0])] else []) + NonBlank(lines[1..])
  }

  /** The rows of a table body. */
  function TableLines(csv: string): seq<string>
  {
    NonBlank(Split(Strip(csv), '\n'))
  }

  /** The cells of a row: the pieces between commas, stripped. */
  function Cells(line: string): seq<string>
  {
    var pieces := Split(line, ',');
    seq(|pieces|, k requires 0 <= k < |pieces| => Strip(pieces[k]))
  }

  /** The table as rows of cells. */
  function Grid(lines: seq<string>): (grid: seq<seq<string>>)
    ensures |grid| == |lines|
  {
    seq(|lines|, i requires 0 <= i < |lines| => Cells(lines[i]))
  }

  /** The header row has `th` cells, every other row `td` cells. */
  function RowTag(i: nat): string
  {
    if i == 0 then "th" else "td"
  }

  function CellOpen(tag: string): string
  {
    Spaces(24) + "<" + tag + ">"
  }

  function CellClose(tag: string): string
  {
    "</" + tag + ">"
  }

  /** The output line of one cell: its text escaped between the row's tags. */
  function CellLine(tag: string, cell: string): string
  {
    CellOpen(tag) + EscapeHtml(cell) + CellClose(tag)
  }

  function CellLines(tag: string, cells: seq<string>): (r: seq<string>)
  {
    seq(|cells|, k requires 0 <= k < |cells| => CellLine(tag, cells[k]))
  }

  function RowParts(tag: string, cells: seq<string>): seq<string>
  {
    [RowOpen] + CellLines(tag, cells) + [RowClose]
  }

  /** The output lines of the first `n` rows. */
  function Rows(grid: seq<seq<string>>, n: nat): seq<string>
    requires n <= |grid|
  {
    if n == 0 then [] else Rows(grid, n - 1) + RowParts(RowTag(n - 1), grid[n - 1])
  }

  /** The output lines of a table with these rows of cells. */
  function TableParts(grid: seq<seq<string>>): seq<string>
  {
    if grid == [] then [EmptyTable]
    else [Container, TableOpen] + Rows(grid, |grid|) + [TableClose, ContainerClose]
  }

  function TableHtml(csv: string): string
  {
    Join(TableParts(Grid(TableLines(csv))), "\n")
  }

  /** `render_table` */
  method RenderTable(csv: string) returns (html: string)
    ensures html == TableHtml(csv)
  {
    var lines := TableLines(csv);
    if lines == [] {
      assert TableParts(Grid(lines)) == [EmptyTable];
      return EmptyTable;
    }
    ghost var grid := Grid(lines);
    var parts := [Container, TableOpen];
    for i := 0 to |lines|
      invariant parts == [Container, TableOpen] + Rows(grid, i)
    {
      var cells := Cells(lines[i]);
      var tag := if i == 0 then "th" else "td";
      GridRow(lines, i);
      RowsStep(grid, i, parts);
      parts := AppendRow(parts, tag, cells);
    }
    TableFinish(grid, parts);
    parts := parts + [TableClose, ContainerClose];
    html := Join(parts, "\n");
  }

  lemma {:induction false} GridRow(lines: seq<string>, i: nat)
    requires i < |lines|
    ensures Grid(lines)[i] == Cells(lines[i])
    ensures RowTag(i) == if i == 0 then "th" else "td"
  {
  }

  lemma {:induction false} RowsStep(grid: seq<seq<string>>, i: nat, parts: seq<string>)
    requires i < |grid| && parts == [Container, TableOpen] + Rows(grid, i)
    ensures parts + RowParts(RowTag(i), grid[i]) == [Container, TableOpen] + Rows(grid, i + 1)
  {
    var row := RowParts(RowTag(i), grid[i]);
    assert Rows(grid, i + 1) == Rows(grid, i) + row;
    AppendAssoc([Container, TableOpen], Rows(grid, i), row);
  }

  lemma {:induction false} TableFinish(grid: seq<seq<string>>, parts: seq<string>)
    requires grid != [] && parts == [Container, TableOpen] + Rows(grid, |grid|)
    ensures parts + [TableClose, ContainerClose] == TableParts(grid)
  {
  }

  /** The body of the row loop of `render_table`: one `<tr>` line, a line
      per cell, one `</tr>` line. */
  method AppendRow(parts: seq<string>, tag: string, cells: seq<string>) returns (longer: seq<string>)
    ensures longer == parts + RowParts(tag, cells)
  {
    longer := parts + [RowOpen];
    for k := 0 to |cells|
      invariant longer == parts + [RowOpen] + CellLines(tag, cells[..k])
    {
      assert CellLines(tag, cells[..k + 1]) == CellLines(tag, cells[..k]) + [CellLine(tag, cells[k])];
      longer := longer + [CellLine(tag, cells[k])];
    }
    assert cells[..|cells|] == cells;
    longer := longer + [RowClose];
  }

  // ---------------------------------------------------------------------
  // Rows

  /** Every row is stripped and holds something; newlines only ever come
      from the input. */
  lemma {:induction false} NonBlankShape(lines: seq<string>, c: char)
    requires forall j :: 0 <= j < |lines| ==> c !in lines[j]
    ensures |NonBlank(lines)| <= |lines|
    ensures forall k :: 0 <= k < |NonBlank(lines)| ==>
      NonBlank(lines)[k] != [] && IsStripped(NonBlank(lines)[k]) && c !in NonBlank(lines)[k]
  {
    if lines != [] {
      NonBlankShape(lines[1..], c);
      StripKeepsOut(lines[0], c);
    }
  }

  /** The rows are non-empty, stripped lines without a newline. */
  lemma {:induction false} TableLinesShape(csv: string)
    ensures forall k :: 0 <= k < |TableLines(csv)| ==>
      TableLines(csv)[k] != [] && IsStripped(TableLines(csv)[k]) && '\n' !in TableLines(csv)[k]
  {
    NonBlankShape(Split(Strip(csv), '\n'), '\n');
  }

  /** A table body has no rows exactly when it is blank. */
  lemma {:induction false} TableLinesEmpty(csv: string)
    ensures TableLines(csv) == [] <==> AllSpace(csv)
  {
    var r := Strip(csv);
    StripShape(csv);
    if !AllSpace(csv) {
      assert r != [] && !IsSpace(r[0]);
      SplitFirst(r, '\n');
      var first := Split(r, '\n')[0];
      assert !AllSpace(first) by { assert !IsSpace(first[0]); }
      StripShape(first);
    } else {
      assert r == [];
      assert Split(r, '\n') == [r];
      assert NonBlank([r]) == [] + NonBlank([]);
    }
  }

  /** A row has one cell more than it has commas; each cell is stripped and
      holds no comma. */
  lemma {:induction false} CellsShape(line: string)
    ensures |Cells(line)| == CountChar(line, ',') + 1
    ensures forall k :: 0 <= k < |Cells(line)| ==> IsStripped(Cells(line)[k]) && ',' !in Cells(line)[k]
  {
    var pieces := Split(line, ',');
    forall k | 0 <= k < |pieces| ensures ',' !in Cells(line)[k] {
      StripKeepsOut(pieces[k], ',');
    }
  }

  // ---------------------------------------------------------------------
  // Cells cannot inject markup

  lemma {:induction false} CellOpenMarkup(tag: string)
    requires '<' !in tag
    ensures CountChar(CellOpen(tag), '<') == 1
  {
    var indent := Spaces(24);
    assert '<' !in indent;
    CountCharAppend(indent, "<", '<');
    CountCharAppend(indent + "<", tag, '<');
    CountCharAppend(indent + "<" + tag, ">", '<');
  }

  lemma {:induction false} CellCloseMarkup(tag: string)
    requires '<' !in tag
    ensures CountChar(CellClose(tag), '<') == 1
  {
    CountCharAppend("</", tag, '<');
    CountCharAppend("</" + tag, ">", '<');
  }

  /** The only `<` in a cell's line are those of its own opening and
      closing tag: whatever the cell holds is escaped. */
  lemma {:induction false} CellLineMarkup(tag: string, cell: string)
    requires tag == "th" || tag == "td"
    ensures CountChar(CellLine(tag, cell), '<') == 2
  {
    EscapeHtmlSafe(cell);
    CellOpenMarkup(tag);
    CellCloseMarkup(tag);
    MarkupAround(CellOpen(tag), EscapeHtml(cell), CellClose(tag));
  }

  lemma {:induction false} MarkupAround(pre: string, body: string, post: string)
    requires CountChar(pre, '<') == 1 && '<' !in body && CountChar(post, '<') == 1
    ensures CountChar(pre + body + post, '<') == 2
  {
    CountCharAppend(pre + body, post, '<');
    CountCharAppend(pre, body, '<');
  }

  // ---------------------------------------------------------------------
  // One `<tr>` per row

  /** Number of occurrences of `x` in `parts`. */
  function Occurrences(parts: seq<string>, x: string): nat
  {
    if parts == [] then 0 else (if parts[0] == x then 1 else 0) + Occurrences(parts[1..], x)
  }

  lemma {:induction false} OccurrencesAppend(a: seq<string>, b: seq<string>, x: string)
    ensures Occurrences(a + b, x) == Occurrences(a, x) + Occurrences(b, x)
  {
    if a == [] {
      assert a + b == b;
    } else {
      assert (a + b)[1..] == a[1..] + b;
      OccurrencesAppend(a[1..], b, x);
    }
  }

  lemma {:induction false} NoRowOpenInCells(tag: string, cells: seq<string>)
    ensures Occurrences(CellLines(tag, cells), RowOpen) == 0
  {
    if cells != [] {
      var c := CellLines(tag, cells);
      assert c[0] != RowOpen by { assert c[0][20] == ' '; }
      assert c[1..] == CellLines(tag, cells[1..]);
      NoRowOpenInCells(tag, cells[1..]);
    }
  }

  lemma {:induction false} RowPartsOpenOnce(tag: string, cells: seq<string>)
    ensures Occurrences(RowParts(tag, cells), RowOpen) == 1
  {
    NoRowOpenInCells(tag, cells);
    OccurrencesAppend([RowOpen] + CellLines(tag, cells), [RowClose], RowOpen);
    OccurrencesAppend([RowOpen], CellLines(tag, cells), RowOpen);
    assert RowClose != RowOpen by { assert RowClose[21] != RowOpen[21]; }
  }

  lemma {:induction false} RowsOpenCount(grid: seq<seq<string>>, n: nat)
    requires n <= |grid|
    ensures Occurrences(Rows(grid, n), RowOpen) == n
  {
    if n > 0 {
      RowsOpenCount(grid, n - 1);
      RowPartsOpenOnce(RowTag(n - 1), grid[n - 1]);
      OccurrencesAppend(Rows(grid, n - 1), RowParts(RowTag(n - 1), grid[n - 1]), RowOpen);
    }
  }

  lemma {:induction false} OccurrencesAbsent(parts: seq<string>, x: string)
    requires x !in parts
    ensures Occurrences(parts, x) == 0
  {
    if parts != [] {
      OccurrencesAbsent(parts[1..], x);
    }
  }

  lemma {:induction false} FrameHasNoRowOpen()
    ensures Occurrences([Container, TableOpen], RowOpen) == 0
    ensures Occurrences([TableClose, ContainerClose], RowOpen) == 0
  {
    assert Container != RowOpen by { assert Container[12] != RowOpen[12]; }
    assert TableOpen != RowOpen by { assert TableOpen[16] != RowOpen[16]; }
    assert TableClose != RowOpen by { assert TableClose[16] != RowOpen[16]; }
    assert ContainerClose != RowOpen by { assert ContainerClose[12] != RowOpen[12]; }
    OccurrencesAbsent([Container, TableOpen], RowOpen);
    OccurrencesAbsent([TableClose, ContainerClose], RowOpen);
  }

  /** A table has exactly one `<tr>` line per row. */
  lemma {:induction false} RowCount(grid: seq<seq<string>>)
    requires grid != []
    ensures Occurrences(TableParts(grid), RowOpen) == |grid|
  {
    var rows := Rows(grid, |grid|);
    RowsOpenCount(grid, |grid|);
    FrameHasNoRowOpen();
    OccurrencesAppend([Container, TableOpen] + rows, [TableClose, ContainerClose], RowOpen);
    OccurrencesAppend([Container, TableOpen], rows, RowOpen);
  }

  /** Earlier rows are never rewritten by later ones. */
  lemma {:induction false} RowsPrefix(grid: seq<seq<string>>, m: nat, n: nat)
    requires m <= n <= |grid|
    ensures Rows(grid, m) <= Rows(grid, n)
    decreases n - m
  {
    if m < n {
      RowsPrefix(grid, m, n - 1);
      var row := RowParts(RowTag(n - 1), grid[n - 1]);
      assert Rows(grid, n) == Rows(grid, n - 1) + row;
      PrefixAppend(Rows(grid, m), Rows(grid, n - 1), row);
    }
  }

  lemma {:induction false} PrefixAppend<T>(a: seq<T>, b: seq<T>, c: seq<T>)
    requires a <= b
    ensures a <= b + c
  {
    assert (b + c)[..|a|] == b[..|a|];
  }

  /** The table opens with the header row, in `th` cells. */
  lemma {:induction false} HeaderRow(grid: seq<seq<string>>)
    requires grid != []
    ensures [Container, TableOpen] + RowParts("th", grid[0]) <= TableParts(grid)
  {
    var frame := [Container, TableOpen];
    assert Rows(grid, 1) == Rows(grid, 0) + RowParts("th", grid[0]);
    assert Rows(grid, 1) == RowParts("th", grid[0]);
    RowsPrefix(grid, 1, |grid|);
    PrefixBoth(frame, Rows(grid, 1), Rows(grid, |grid|));
    PrefixAppend(frame + Rows(grid, 1), frame + Rows(grid, |grid|), [TableClose, ContainerClose]);
  }

  /** Every row after the first is a `td` row, in order. */
  lemma {:induction false} BodyRow(grid: seq<seq<string>>, i: nat)
    requires 0 < i < |grid|
    ensures [Container, TableOpen] + Rows(grid, i) + RowParts("td", grid[i]) <= TableParts(grid)
  {
    var frame := [Container, TableOpen];
    RowsStep(grid, i, frame + Rows(grid, i));
    RowsPrefix(grid, i + 1, |grid|);
    PrefixBoth(frame, Rows(grid, i + 1), Rows(grid, |grid|));
    PrefixAppend(frame + Rows(grid, i + 1), frame + Rows(grid, |grid|), [TableClose, ContainerClose]);
  }

  lemma {:induction false} PrefixBoth<T>(p: seq<T>, a: seq<T>, b: seq<T>)
    requires a <= b
    ensures p + a <= p + b
  {
    assert (p + b)[..|p + a|] == p + b[..|a|];
  }
}
