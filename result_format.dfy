/**
 * `formatResultSet`: a header line of column names, then one line per row,
 * every cell rendered with Java's `String.format("%-20s", cell)`.
 */
module ResultFormat {
  import opened Model

  /** The field width of `%-20s`. */
  const Width: nat := 20

  /** `%-20s`: left-justified, padded with spaces to at least Width characters, never truncated. */
  function Pad(s: string): string
  {
    if |s| < Width then s + seq(Width - |s|, _ => ' ') else s
  }

  /** A padded cell is the cell followed by spaces, exactly Width characters long unless the cell is longer. */
  lemma PadShape(s: string)
    ensures |Pad(s)| == if |s| < Width then Width else |s|
    ensures Pad(s)[..|s|] == s
    ensures forall i :: |s| <= i < |Pad(s)| ==> Pad(s)[i] == ' '
  {
  }

  /** A cell as `%s` prints it: SQL NULL reads back as Java `null`, printed "null". */
  function Render(cell: Option<string>): string
  {
    match cell
    case None => "null"
    case Some(s) => s
  }

  function Rendered(row: seq<Option<string>>): (r: seq<string>)
    ensures |r| == |row| && forall i :: 0 <= i < |row| ==> r[i] == Render(row[i])
  {
    seq(|row|, i requires 0 <= i < |row| => Render(row[i]))
  }

  /** Pieces of text appended left to right, as a StringBuilder accumulates them. */
  function Concat(parts: seq<string>): string
  {
    if parts == [] then "" else parts[0] + Concat(parts[1..])
  }

  lemma {:induction false} ConcatAppend(parts: seq<string>, i: nat)
    requires i < |parts|
    ensures Concat(parts[..i + 1]) == Concat(parts[..i]) + parts[i]
  {
    if i > 0 {
      var tail := parts[1..];
      ConcatAppend(tail, i - 1);
      assert tail[..i] == parts[..i + 1][1..];
      assert tail[..i - 1] == parts[..i][1..];
      var first, middle, last := parts[0], Concat(tail[..i - 1]), parts[i];
      calc {
        Concat(parts[..i + 1]);
        first + Concat(tail[..i]);
        first + (middle + last);
        (first + middle) + last;
        Concat(parts[..i]) + last;
      }
    } else {
      assert parts[..1][1..] == [];
    }
  }

  /** Each cell of a line, padded. */
  function Padded(cells: seq<string>): (r: seq<string>)
    ensures |r| == |cells| && forall i :: 0 <= i < |cells| ==> r[i] == Pad(cells[i])
  {
    seq(|cells|, i requires 0 <= i < |cells| => Pad(cells[i]))
  }

  /** The cells of one line, each padded, side by side. */
  function PaddedCells(cells: seq<string>): string
  {
    Concat(Padded(cells))
  }

  /** One row's line, without its newline. */
  function RowText(row: seq<Option<string>>): string
  {
    PaddedCells(Rendered(row))
  }

  /** Each row's line with its newline. */
  function Terminated(rows: seq<seq<Option<string>>>): (r: seq<string>)
    ensures |r| == |rows| && forall k :: 0 <= k < |rows| ==> r[k] == RowText(rows[k]) + "\n"
  {
    seq(|rows|, k requires 0 <= k < |rows| => RowText(rows[k]) + "\n")
  }

  /** One newline-terminated line per row, in result order. */
  function RowLines(rows: seq<seq<Option<string>>>): string
  {
    Concat(Terminated(rows))
  }

  /** The text `formatResultSet` produces for a result set. */
  function Formatted(columns: seq<string>, rows: seq<seq<Option<string>>>): string
  {
    PaddedCells(columns) + "\n" + RowLines(rows)
  }

  /** The `%-20s` cells of one line, appended left to right. */
  method FormatCells(cells: seq<string>) returns (line: string)
    ensures line == PaddedCells(cells)
  {
    line := "";
    for i := 0 to |cells|
      invariant line == Concat(Padded(cells)[..i])
    {
      ConcatAppend(Padded(cells), i);
      line := line + Pad(cells[i]);
    }
    assert Padded(cells)[..|cells|] == Padded(cells);
  }

  /** `formatResultSet`: the header loop, then the row loop. */
  method FormatResultSet(columns: seq<string>, rows: seq<seq<Option<string>>>) returns (text: string)
    ensures text == Formatted(columns, rows)
  {
    var header := FormatCells(columns);
    var body := "";
    var k := 0;
    while k < |rows|
      invariant k <= |rows|
      invariant body == Concat(Terminated(rows)[..k])
    {
      var line := FormatCells(Rendered(rows[k]));
      ConcatAppend(Terminated(rows), k);
      body := body + (line + "\n");
      k := k + 1;
    }
    assert Terminated(rows)[..|rows|] == Terminated(rows);
    text := header + "\n" + body;
  }

  lemma {:induction false} ConcatAligned(parts: seq<string>, j: nat)
    requires forall i :: 0 <= i < |parts| ==> |parts[i]| == Width
    requires j < |parts|
    ensures |Concat(parts)| == Width * |parts|
    ensures Concat(parts)[Width * j .. Width * (j + 1)] == parts[j]
  {
    if j > 0 {
      ConcatAligned(parts[1..], j - 1);
    } else if |parts| > 1 {
      ConcatAligned(parts[1..], 0);
    }
  }

  /**
   * When every cell fits the field width, the line is Width characters per
   * cell and cell `j` occupies exactly columns `Width * j` up to `Width * (j + 1)`.
   */
  lemma CellsAligned(cells: seq<string>, j: nat)
    requires forall c :: c in cells ==> |c| <= Width
    requires j < |cells|
    ensures |PaddedCells(cells)| == Width * |cells|
    ensures PaddedCells(cells)[Width * j .. Width * (j + 1)] == Pad(cells[j])
  {
    var parts := Padded(cells);
    forall i | 0 <= i < |parts| ensures |parts[i]| == Width {
      assert cells[i] in cells;
      PadShape(cells[i]);
    }
    ConcatAligned(parts, j);
  }

  /**
   * When the result set is rectangular and no name or cell is wider than the
   * field, every row's line is as long as the header line and the cell of
   * column `j` sits exactly under the header of column `j`.
   */
  lemma ColumnsLineUp(columns: seq<string>, rows: seq<seq<Option<string>>>, k: nat, j: nat)
    requires Rectangular(columns, rows)
    requires forall c :: c in columns ==> |c| <= Width
    requires forall r, c :: r in rows && c in r ==> |Render(c)| <= Width
    requires k < |rows| && j < |columns|
    ensures |RowText(rows[k])| == |PaddedCells(columns)| == Width * |columns|
    ensures PaddedCells(columns)[Width * j .. Width * (j + 1)] == Pad(columns[j])
    ensures RowText(rows[k])[Width * j .. Width * (j + 1)] == Pad(Render(rows[k][j]))
  {
    var cells := Rendered(rows[k]);
    forall c | c in cells ensures |c| <= Width {
      var i :| 0 <= i < |cells| && cells[i] == c;
      assert rows[k] in rows && rows[k][i] in rows[k];
    }
    CellsAligned(columns, j);
    CellsAligned(cells, j);
  }

  /** Splits text into its newline-terminated lines (a trailing unterminated piece is a line too). */
  function Lines(s: string): seq<string>
    decreases |s|
  {
    if s == [] then []
    else
      var i := IndexOfNewline(s);
      if i == |s| then [s] else [s[..i]] + Lines(s[i + 1..])
  }

  function IndexOfNewline(s: string): (i: nat)
    ensures i <= |s|
    ensures forall k :: 0 <= k < i ==> s[k] != '\n'
    ensures i < |s| ==> s[i] == '\n'
  {
    if s == [] then 0 else if s[0] == '\n' then 0 else 1 + IndexOfNewline(s[1..])
  }

  predicate NoNewline(s: string)
  {
    forall k :: 0 <= k < |s| ==> s[k] != '\n'
  }

  lemma LinesCons(line: string, rest: string)
    requires NoNewline(line)
    ensures Lines(line + "\n" + rest) == [line] + Lines(rest)
  {
    var s := line + "\n" + rest;
    var i := IndexOfNewline(s);
    assert s[|line|] == '\n';
    assert i == |line|;
    assert s[..i] == line;
    assert s[i + 1..] == rest;
  }

  lemma {:induction false} ConcatNoNewline(parts: seq<string>)
    requires forall i :: 0 <= i < |parts| ==> NoNewline(parts[i])
    ensures NoNewline(Concat(parts))
  {
    if parts != [] {
      ConcatNoNewline(parts[1..]);
    }
  }

  lemma PaddedCellsNoNewline(cells: seq<string>)
    requires forall c :: c in cells ==> NoNewline(c)
    ensures NoNewline(PaddedCells(cells))
  {
    var parts := Padded(cells);
    forall i | 0 <= i < |parts| ensures NoNewline(parts[i]) {
      var c, p := cells[i], parts[i];
      assert c in cells;
      PadShape(c);
      forall k | 0 <= k < |p| ensures p[k] != '\n' {
        if k < |c| {
          assert p[k] == p[..|c|][k] == c[k];
        }
      }
    }
    ConcatNoNewline(parts);
  }

  predicate CellsOneLine(columns: seq<string>, rows: seq<seq<Option<string>>>)
  {
    && (forall c :: c in columns ==> NoNewline(c))
    && (forall r, c :: r in rows && c in r ==> NoNewline(Render(c)))
  }

  lemma {:induction false} RowLinesAreLines(rows: seq<seq<Option<string>>>)
    requires forall r, c :: r in rows && c in r ==> NoNewline(Render(c))
    ensures Lines(RowLines(rows)) == seq(|rows|, k requires 0 <= k < |rows| => RowText(rows[k]))
  {
    if rows != [] {
      RowLinesAreLines(rows[1..]);
      var cells := Rendered(rows[0]);
      forall c | c in cells ensures NoNewline(c) {
        var i :| 0 <= i < |cells| && cells[i] == c;
        assert rows[0][i] in rows[0];
      }
      PaddedCellsNoNewline(cells);
      assert Terminated(rows)[1..] == Terminated(rows[1..]);
      LinesCons(RowText(rows[0]), RowLines(rows[1..]));
    }
  }

  /**
   * Unless a cell itself holds a newline, the formatted text is exactly the
   * header line followed by one line per row, in the order the rows came.
   */
  lemma FormattedLines(columns: seq<string>, rows: seq<seq<Option<string>>>)
    requires CellsOneLine(columns, rows)
    ensures Lines(Formatted(columns, rows)) == [PaddedCells(columns)] + seq(|rows|, k requires 0 <= k < |rows| => RowText(rows[k]))
  {
    PaddedCellsNoNewline(columns);
    LinesCons(PaddedCells(columns), RowLines(rows));
    RowLinesAreLines(rows);
  }
}
