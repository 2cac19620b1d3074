/**
 * The debug-table printer `list_of_lists_to_md_table`: rows of cells become
 * a Markdown table whose columns line up. Column widths come from
 * `zip(*rows)`, which stops at the shortest row; every column but a row's
 * last is left-justified to its width; a dash separator goes in after the
 * header; every line is `"| " + " | ".join(cells) + " |"`; lines are joined
 * with newlines. Cells are modelled as the strings `str(cell)` gives.
 */
module MdTable {
  import opened Wrappers
  import opened Strings

  type Row = seq<string>

  /** The table's text, or the `IndexError` the Python code raises. */
  datatype Rendered = Table(text: string) | IndexError

  /**
   * How many columns `zip(*rows)` yields: the length of the shortest row,
   * and none at all for no rows (see `ColumnCountIsMin`).
   */
  function ColumnCount(rows: seq<Row>): nat
  {
    if |rows| == 0 then 0
    else if |rows| == 1 then |rows[0]|
    else
      var rest := ColumnCount(rows[1..]);
      if |rows[0]| <= rest then |rows[0]| else rest
  }

  /** `ColumnCount` is the length of some row, and no row is shorter. */
  lemma {:induction false} ColumnCountIsMin(rows: seq<Row>)
    ensures forall k :: 0 <= k < |rows| ==> ColumnCount(rows) <= |rows[k]|
    ensures rows != [] ==> exists k :: 0 <= k < |rows| && ColumnCount(rows) == |rows[k]|
  {
    if |rows| > 1 {
      ColumnCountIsMin(rows[1..]);
      assert forall k :: 1 <= k < |rows| ==> rows[k] == rows[1..][k - 1];
      if ColumnCount(rows) != |rows[0]| {
        var k :| 0 <= k < |rows[1..]| && ColumnCount(rows[1..]) == |rows[1..][k]|;
        assert ColumnCount(rows) == |rows[k + 1]|;
      }
    }
  }

  /**
   * `max(map(len, map(str, col)))` for column `i`: the length of the
   * longest cell in that column, header included (see `ColumnWidthIsMax`).
   */
  function ColumnWidth(rows: seq<Row>, i: nat): nat
    requires i < ColumnCount(rows)
  {
    if |rows| == 1 then |rows[0][i]|
    else
      var rest := ColumnWidth(rows[1..], i);
      if rest <= |rows[0][i]| then |rows[0][i]| else rest
  }

  /** The width of a column is at least every cell's length and equals one of them. */
  lemma {:induction false} ColumnWidthIsMax(rows: seq<Row>, i: nat)
    requires i < ColumnCount(rows)
    ensures forall k :: 0 <= k < |rows| ==> i < |rows[k]| && |rows[k][i]| <= ColumnWidth(rows, i)
    ensures exists k :: 0 <= k < |rows| && i < |rows[k]| && ColumnWidth(rows, i) == |rows[k][i]|
  {
    ColumnCountIsMin(rows);
    if |rows| > 1 {
      ColumnWidthIsMax(rows[1..], i);
      assert forall k :: 1 <= k < |rows| ==> rows[k] == rows[1..][k - 1];
      if ColumnWidth(rows, i) != |rows[0][i]| {
        var k :| 0 <= k < |rows[1..]| && i < |rows[1..][k]| && ColumnWidth(rows[1..], i) == |rows[1..][k][i]|;
        assert ColumnWidth(rows, i) == |rows[k + 1][i]|;
      }
    }
  }

  /** The `widths` list: one width per column `zip` yields. */
  function Widths(rows: seq<Row>): (w: seq<nat>)
    ensures |w| == ColumnCount(rows)
  {
    seq(ColumnCount(rows), i requires 0 <= i < ColumnCount(rows) => ColumnWidth(rows, i))
  }

  /**
   * The table can be built without an `IndexError`: there is a header row
   * (`rows[0]`), and no row has a non-last cell past the end of `widths`.
   */
  predicate Renderable(rows: seq<Row>)
  {
    rows != [] && forall k :: 0 <= k < |rows| ==> |rows[k]| <= ColumnCount(rows) + 1
  }

  /** Cell `i` of a row as printed: the last one as is, the others left-justified. */
  function Cell(row: Row, widths: seq<nat>, i: nat): string
    requires i < |row| && (i == |row| - 1 || i < |widths|)
  {
    if i == |row| - 1 then row[i] else LJust(row[i], widths[i])
  }

  function RowCells(row: Row, widths: seq<nat>): seq<string>
    requires |row| <= |widths| + 1
  {
    seq(|row|, i requires 0 <= i < |row| => Cell(row, widths, i))
  }

  /**
   * Cell `i` of the separator: dashes as wide as the column, except under
   * the last header cell, where it is as wide as that cell's own text.
   */
  function SeparatorCell(header: Row, widths: seq<nat>, i: nat): string
    requires i < |header| && (i == |header| - 1 || i < |widths|)
  {
    if i == |header| - 1 then Repeat('-', |header[i]|) else Repeat('-', widths[i])
  }

  function SeparatorCells(header: Row, widths: seq<nat>): seq<string>
    requires |header| <= |widths| + 1
  {
    seq(|header|, i requires 0 <= i < |header| => SeparatorCell(header, widths, i))
  }

  /** One line of the table: `f"| {' | '.join(cells)} |"`. */
  function Line(cells: seq<string>): string
  {
    "| " + Join(cells, " | ") + " |"
  }

  /**
   * The `lines` list before the final newline join: one line per row, with
   * the separator inserted at position 1. There is one line more than
   * there are rows; the header line comes first and the separator second.
   */
  function TableLines(rows: seq<Row>): (lines: seq<string>)
    requires Renderable(rows)
    ensures |lines| == |rows| + 1
    ensures lines[0] == Line(RowCells(rows[0], Widths(rows)))
    ensures lines[1] == Line(SeparatorCells(rows[0], Widths(rows)))
  {
    var w := Widths(rows);
    [Line(RowCells(rows[0], w)), Line(SeparatorCells(rows[0], w))]
      + seq(|rows| - 1, k requires 0 <= k < |rows| - 1 => Line(RowCells(rows[k + 1], w)))
  }

  /**
   * `list_of_lists_to_md_table(rows)`: builds one line per row, then
   * inserts the separator after the header and joins with newlines. It
   * fails with `IndexError` exactly when the rows are not renderable.
   */
  method ListOfListsToMdTable(rows: seq<Row>) returns (r: Rendered)
    ensures r.IndexError? <==> !Renderable(rows)
    ensures r.Table? ==> Renderable(rows) && r.text == Join(TableLines(rows), "\n")
  {
    var widths := Widths(rows);
    var lines: seq<string> := [];
    for k := 0 to |rows|
      invariant |lines| == k
      invariant forall j :: 0 <= j < k ==> |rows[j]| <= |widths| + 1
      invariant forall j :: 0 <= j < k ==> lines[j] == Line(RowCells(rows[j], widths))
    {
      var formatted := FormatRow(rows[k], widths);
      if formatted.None? {
        TooLongRow(rows, k);
        return IndexError;
      }
      lines := lines + [Line(formatted.value)];
    }
    if |rows| == 0 {
      // `rows[0]` is out of range
      return IndexError;
    }
    var formatted := FormatSeparator(rows[0], widths);
    Assembled(rows, lines);
    lines := lines[..1] + [Line(formatted)] + lines[1..];
    r := Table(Join(lines, "\n"));
  }

  /**
   * The inner loop over one row: the cells as printed, or `None` for the
   * `IndexError` of a non-last cell past the end of `widths`.
   */
  method FormatRow(row: Row, widths: seq<nat>) returns (formatted: Option<seq<string>>)
    ensures formatted.None? <==> |row| > |widths| + 1
    ensures formatted.Some? ==> |row| <= |widths| + 1 && formatted.value == RowCells(row, widths)
  {
    var cells: seq<string> := [];
    var lastCol := |row| - 1;
    for i := 0 to |row|
      invariant |cells| == i
      invariant i <= |widths| + 1 && (i == |widths| + 1 ==> lastCol == |widths|)
      invariant forall j :: 0 <= j < i ==> cells[j] == Cell(row, widths, j)
    {
      if i == lastCol {
        cells := cells + [row[i]];
      } else if i < |widths| {
        cells := cells + [LJust(row[i], widths[i])];
      } else {
        // `widths[i]` is out of range
        return None;
      }
    }
    return Some(cells);
  }

  /** The loop that builds the separator's cells from the header row. */
  method FormatSeparator(header: Row, widths: seq<nat>) returns (formatted: seq<string>)
    requires |header| <= |widths| + 1
    ensures formatted == SeparatorCells(header, widths)
  {
    formatted := [];
    var lastCol := |header| - 1;
    for i := 0 to |header|
      invariant |formatted| == i
      invariant forall j :: 0 <= j < i ==> formatted[j] == SeparatorCell(header, widths, j)
    {
      if i == lastCol {
        formatted := formatted + [Repeat('-', |header[i]|)];
      } else {
        formatted := formatted + [Repeat('-', widths[i])];
      }
    }
  }

  lemma TooLongRow(rows: seq<Row>, k: nat)
    requires k < |rows| && |rows[k]| > ColumnCount(rows) + 1
    ensures !Renderable(rows)
  {
  }

  /** Inserting the separator at position 1 of the row lines gives the table's lines. */
  lemma Assembled(rows: seq<Row>, lines: seq<string>)
    requires Renderable(rows) && |lines| == |rows|
    requires forall j :: 0 <= j < |rows| ==> lines[j] == Line(RowCells(rows[j], Widths(rows)))
    ensures lines[..1] + [Line(SeparatorCells(rows[0], Widths(rows)))] + lines[1..] == TableLines(rows)
  {
  }

  /** Where column `i` starts inside `" | ".join(cells)` once every earlier cell is padded. */
  function ColumnOffset(widths: seq<nat>, i: nat): nat
    requires i <= |widths|
  {
    if i == 0 then 0 else widths[0] + 3 + ColumnOffset(widths[1..], i - 1)
  }

  lemma {:induction false} OffsetsMatch(cells: seq<string>, widths: seq<nat>, i: nat)
    requires i <= |cells| && i <= |widths|
    requires forall t :: 0 <= t < i ==> |cells[t]| == widths[t]
    ensures JoinOffset(cells, " | ", i) == ColumnOffset(widths, i)
  {
    if i > 0 {
      OffsetsMatch(cells[1..], widths[1..], i - 1);
    }
  }

  /**
   * In a line whose first `i` cells are padded to their column widths,
   * cell `i` sits at the column's fixed offset, and a last cell is followed
   * only by the closing `" |"`.
   */
  lemma LineAt(cells: seq<string>, widths: seq<nat>, i: nat)
    requires i < |cells| && i <= |widths|
    requires forall t :: 0 <= t < i ==> |cells[t]| == widths[t]
    ensures var L := Line(cells);
            var o := 2 + ColumnOffset(widths, i);
            && o + |cells[i]| <= |L|
            && L[o..o + |cells[i]|] == cells[i]
            && (i == |cells| - 1 ==> L[o..] == cells[i] + " |")
  {
    JoinAt(cells, " | ", i);
    OffsetsMatch(cells, widths, i);
    var J := Join(cells, " | ");
    var jo := JoinOffset(cells, " | ", i);
    SliceOfMiddle("| ", J, " |", jo, jo + |cells[i]|);
  }

  /** Which line of the table row `j` becomes: the header stays first, the rest move down one. */
  lemma TableLineOf(rows: seq<Row>, j: nat)
    requires Renderable(rows) && j < |rows|
    ensures |TableLines(rows)| == |rows| + 1
    ensures TableLines(rows)[if j == 0 then 0 else j + 1] == Line(RowCells(rows[j], Widths(rows)))
  {
    var w := Widths(rows);
    var rest := seq(|rows| - 1, k requires 0 <= k < |rows| - 1 => Line(RowCells(rows[k + 1], w)));
    assert TableLines(rows) == [Line(RowCells(rows[0], w)), Line(SeparatorCells(rows[0], w))] + rest;
    if j > 0 {
      assert rest[j - 1] == Line(RowCells(rows[j], w));
    }
  }

  /**
   * The layout of a data or header line whose cells fit their columns:
   * every non-last cell is the cell left-justified to its column's width at
   * the column's fixed offset, and the last cell is printed unpadded right
   * before the closing `" |"`.
   */
  lemma RowLayout(row: Row, widths: seq<nat>, i: nat)
    requires |row| <= |widths| + 1 && i < |row|
    requires forall t :: 0 <= t < |row| - 1 ==> |row[t]| <= widths[t]
    ensures var L := Line(RowCells(row, widths));
            var o := 2 + ColumnOffset(widths, i);
            && (i < |row| - 1 ==> o + widths[i] <= |L| && L[o..o + widths[i]] == LJust(row[i], widths[i]))
            && (i == |row| - 1 ==> o <= |L| && L[o..] == row[i] + " |")
  {
    var cells := RowCells(row, widths);
    forall t | 0 <= t < i
      ensures |cells[t]| == widths[t]
    {
      assert cells[t] == LJust(row[t], widths[t]);
    }
    LineAt(cells, widths, i);
    if i < |row| - 1 {
      assert cells[i] == LJust(row[i], widths[i]);
    } else {
      assert cells[i] == row[i];
    }
  }

  /**
   * Row `j` of a renderable table is line 0 if it is the header and line
   * `j + 1` otherwise, so the rows keep their order, and it is laid out
   * column by column as `RowLayout` says.
   */
  lemma RowColumnAt(rows: seq<Row>, j: nat, i: nat)
    requires Renderable(rows) && j < |rows| && i < |rows[j]|
    ensures |TableLines(rows)| == |rows| + 1
    ensures var w := Widths(rows);
            var L := TableLines(rows)[if j == 0 then 0 else j + 1];
            var o := 2 + ColumnOffset(w, i);
            && i <= |w|
            && (i < |rows[j]| - 1 ==> o + w[i] <= |L| && L[o..o + w[i]] == LJust(rows[j][i], w[i]))
            && (i == |rows[j]| - 1 ==> o <= |L| && L[o..] == rows[j][i] + " |")
  {
    var w := Widths(rows);
    TableLineOf(rows, j);
    assert |rows[j]| <= |w| + 1;
    forall t | 0 <= t < |rows[j]| - 1
      ensures |rows[j][t]| <= w[t]
    {
      ColumnWidthIsMax(rows, t);
    }
    RowLayout(rows[j], w, i);
  }

  /**
   * The layout of a separator line: dashes as wide as each non-last column
   * at that column's offset, and as many dashes as the last header cell has
   * characters at the end.
   */
  lemma SeparatorLayout(header: Row, widths: seq<nat>, i: nat)
    requires |header| <= |widths| + 1 && i < |header|
    ensures var L := Line(SeparatorCells(header, widths));
            var o := 2 + ColumnOffset(widths, i);
            && (i < |header| - 1 ==> o + widths[i] <= |L| && L[o..o + widths[i]] == Repeat('-', widths[i]))
            && (i == |header| - 1 ==> o <= |L| && L[o..] == Repeat('-', |header[i]|) + " |")
  {
    var cells := SeparatorCells(header, widths);
    forall t | 0 <= t < i
      ensures |cells[t]| == widths[t]
    {
      assert cells[t] == Repeat('-', widths[t]);
    }
    LineAt(cells, widths, i);
    if i < |header| - 1 {
      assert cells[i] == Repeat('-', widths[i]);
    } else {
      assert cells[i] == Repeat('-', |header[i]|);
    }
  }

  /** The table's separator is line 1, laid out column by column as `SeparatorLayout` says. */
  lemma SeparatorColumnAt(rows: seq<Row>, i: nat)
    requires Renderable(rows) && i < |rows[0]|
    ensures var w := Widths(rows);
            var L := TableLines(rows)[1];
            var o := 2 + ColumnOffset(w, i);
            && i <= |w|
            && (i < |rows[0]| - 1 ==> o + w[i] <= |L| && L[o..o + w[i]] == Repeat('-', w[i]))
            && (i == |rows[0]| - 1 ==> o <= |L| && L[o..] == Repeat('-', |rows[0][i]|) + " |")
  {
    var w := Widths(rows);
    assert |rows[0]| <= |w| + 1;
    assert TableLines(rows)[1] == Line(SeparatorCells(rows[0], w));
    SeparatorLayout(rows[0], w, i);
  }

  /** A line is free of newlines when its cells are. */
  lemma LineAvoidsNewline(cells: seq<string>)
    requires forall k :: 0 <= k < |cells| ==> '\n' !in cells[k]
    ensures '\n' !in Line(cells)
  {
    JoinAvoids(cells, " | ", '\n');
  }

  /** Padding with spaces or writing dashes adds no newline to a cell. */
  lemma CellsAvoidNewline(row: Row, widths: seq<nat>)
    requires |row| <= |widths| + 1
    requires forall i :: 0 <= i < |row| ==> '\n' !in row[i]
    ensures forall k :: 0 <= k < |row| ==> '\n' !in RowCells(row, widths)[k]
    ensures forall k :: 0 <= k < |row| ==> '\n' !in SeparatorCells(row, widths)[k]
  {
    forall k | 0 <= k < |row|
      ensures '\n' !in RowCells(row, widths)[k]
    {
      if k < |row| - 1 && |row[k]| < widths[k] {
        assert RowCells(row, widths)[k] == row[k] + Repeat(' ', widths[k] - |row[k]|);
      }
    }
  }

  /**
   * When no cell holds a newline, the text splits back into exactly the
   * table's `|rows| + 1` lines: the header, the separator, then the data
   * rows in their order.
   */
  lemma {:induction false} TableTextLines(rows: seq<Row>)
    requires Renderable(rows)
    requires forall j, i :: 0 <= j < |rows| && 0 <= i < |rows[j]| ==> '\n' !in rows[j][i]
    ensures |TableLines(rows)| == |rows| + 1
    ensures Split(Join(TableLines(rows), "\n"), '\n') == TableLines(rows)
  {
    var w := Widths(rows);
    var lines := TableLines(rows);
    TableLineOf(rows, 0);
    forall n | 0 <= n < |lines|
      ensures '\n' !in lines[n]
    {
      var j := if n <= 1 then 0 else n - 1;
      TableLineOf(rows, j);
      CellsAvoidNewline(rows[j], w);
      if n == 1 {
        LineAvoidsNewline(SeparatorCells(rows[0], w));
      } else {
        LineAvoidsNewline(RowCells(rows[j], w));
      }
    }
    JoinSplit(lines, '\n');
  }
}
