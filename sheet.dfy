/** A sheet of a spreadsheet as the scripts see it: a sequence of rows, row number `r`
    (1-based, the header being row 1) holding `rows[r - 1]`. Cells are the values
    `getValues` returns (text, numbers, and dates as milliseconds since the epoch) and
    the two values a script can write that are neither, an Invalid Date and `NaN`. */
module Sheets {
  import opened Common

  datatype Cell = Str(s: string) | Num(n: real) | Date(ms: int) | BadDate | NaN

  type Row = seq<Cell>

  /** The empty cell `getValues` reports beyond the end of a shorter row. */
  const Blank := Str("")

  /** Column `c` (0-based) of a row. */
  function CellAt(row: Row, c: nat): (r: Cell)
    ensures c >= |row| ==> r == Blank
  {
    if c < |row| then row[c] else Blank
  }

  /** `new Date(cell).getTime()`: `None` for an Invalid Date. Numbers are milliseconds,
      truncated toward zero; `parseDate` is the engine's date-string parser. */
  function AsDate(c: Cell, parseDate: string -> Option<int>): Option<int> {
    match c
    case Date(ms) => Some(ms)
    case Num(n) => Some(TruncMs(n))
    case Str(s) => parseDate(s)
    case BadDate => None
    case NaN => None
  }

  /** A `Date` object written to a cell: an Invalid Date stays one, and neither is text
      for the date parser. */
  function DateCell(d: Option<int>): (c: Cell)
    ensures c.Date? || c.BadDate?
  {
    match d
    case Some(ms) => Date(ms)
    case None => BadDate
  }

  /** A written date reads back as the same date, whatever the parser. */
  lemma DateCellReadsBack(d: Option<int>, parseDate: string -> Option<int>)
    ensures AsDate(DateCell(d), parseDate) == d
  {
  }

  /** `date < cutoff` for a date that may be invalid: an Invalid Date compares false. */
  predicate Before(d: Option<int>, cutoff: int) {
    d.Some? && d.value < cutoff
  }

  /** `date >= cutoff`, false as well for an Invalid Date. */
  predicate NotBefore(d: Option<int>, cutoff: int) {
    d.Some? && d.value >= cutoff
  }

  /** The row `row` with `cells` written from column `col` on, as
      `getRange(r, col + 1, 1, |cells|).setValues([cells])` leaves it; a shorter row is
      padded with empty cells. */
  function Overwrite(row: Row, col: nat, cells: seq<Cell>): Row {
    Pad(row, col) + cells + (if |row| > col + |cells| then row[col + |cells|..] else [])
  }

  /** The first `n` cells of `row`, empty cells filling in. */
  function Pad(row: Row, n: nat): (r: Row)
    ensures |r| == n
    ensures forall j :: 0 <= j < n ==> r[j] == CellAt(row, j)
  {
    if n == 0 then [] else Pad(row, n - 1) + [CellAt(row, n - 1)]
  }

  /** Writing cells changes exactly those columns. */
  lemma OverwriteCells(row: Row, col: nat, cells: seq<Cell>, j: nat)
    ensures CellAt(Overwrite(row, col, cells), j) == if col <= j < col + |cells| then cells[j - col] else CellAt(row, j)
  {
    var w := Overwrite(row, col, cells);
    assert |w| == col + |cells| + (if |row| > col + |cells| then |row| - col - |cells| else 0);
    if j < col {
      assert w[j] == Pad(row, col)[j];
    } else if j < col + |cells| {
      assert w[j] == cells[j - col];
    } else if j < |w| {
      assert w[j] == row[j];
    }
  }

  /** Writing the same cells twice leaves the row as writing them once. */
  lemma OverwriteTwice(row: Row, col: nat, cells: seq<Cell>)
    ensures Overwrite(Overwrite(row, col, cells), col, cells) == Overwrite(row, col, cells)
  {
    var w := Overwrite(row, col, cells);
    var w2 := Overwrite(w, col, cells);
    assert |w2| == |w|;
    forall j | 0 <= j < |w|
      ensures w2[j] == w[j]
    {
      OverwriteCells(w, col, cells, j);
      OverwriteCells(row, col, cells, j);
    }
  }

  /** The rows of `rows` that `doomed` does not pick, in their order. */
  function Surviving(rows: seq<Row>, doomed: Row -> bool): seq<Row> {
    if rows == [] then []
    else (if doomed(rows[0]) then [] else [rows[0]]) + Surviving(rows[1..], doomed)
  }

  /** How many rows of `rows` `doomed` picks. */
  function DoomedCount(rows: seq<Row>, doomed: Row -> bool): nat {
    if rows == [] then 0
    else (if doomed(rows[0]) then 1 else 0) + DoomedCount(rows[1..], doomed)
  }

  /** Exactly the rows not picked survive, and as many rows go as are picked. */
  lemma {:induction false} SurvivingFacts(rows: seq<Row>, doomed: Row -> bool)
    ensures forall r :: r in Surviving(rows, doomed) <==> r in rows && !doomed(r)
    ensures |Surviving(rows, doomed)| + DoomedCount(rows, doomed) == |rows|
  {
    if rows != [] {
      SurvivingFacts(rows[1..], doomed);
      assert forall r :: r in rows <==> r == rows[0] || r in rows[1..];
    }
  }

  /** Surviving keeps the order: it is a subsequence given by increasing indices. */
  lemma {:induction false} SurvivingInOrder(rows: seq<Row>, doomed: Row -> bool, a: nat, b: nat)
    requires a < b < |Surviving(rows, doomed)|
    ensures exists i, j :: 0 <= i < j < |rows| && rows[i] == Surviving(rows, doomed)[a] && rows[j] == Surviving(rows, doomed)[b]
  {
    var s := Surviving(rows, doomed);
    var tail := Surviving(rows[1..], doomed);
    if doomed(rows[0]) {
      assert s == tail;
      SurvivingInOrder(rows[1..], doomed, a, b);
      var i, j :| 0 <= i < j < |rows[1..]| && rows[1..][i] == tail[a] && rows[1..][j] == tail[b];
      assert rows[i + 1] == s[a] && rows[j + 1] == s[b];
    } else if a == 0 {
      assert s[b] == tail[b - 1];
      SurvivingMember(rows[1..], doomed, b - 1);
      var j :| 0 <= j < |rows[1..]| && rows[1..][j] == tail[b - 1];
      assert rows[0] == s[a] && rows[j + 1] == s[b];
    } else {
      assert s[a] == tail[a - 1] && s[b] == tail[b - 1];
      SurvivingInOrder(rows[1..], doomed, a - 1, b - 1);
      var i, j :| 0 <= i < j < |rows[1..]| && rows[1..][i] == tail[a - 1] && rows[1..][j] == tail[b - 1];
      assert rows[i + 1] == s[a] && rows[j + 1] == s[b];
    }
  }

  lemma {:induction false} SurvivingMember(rows: seq<Row>, doomed: Row -> bool, a: nat)
    requires a < |Surviving(rows, doomed)|
    ensures exists i :: 0 <= i < |rows| && rows[i] == Surviving(rows, doomed)[a]
  {
    SurvivingFacts(rows, doomed);
    assert Surviving(rows, doomed)[a] in Surviving(rows, doomed);
  }

  /** The rows after the retention loop: the first row stays and the data rows
      `doomed` picks are gone. */
  function DataRowsKept(rows: seq<Row>, doomed: Row -> bool): seq<Row> {
    if rows == [] then [] else [rows[0]] + Surviving(rows[1..], doomed)
  }

  /** The first row is kept, and a data row is kept exactly when `doomed` does not
      pick it; the rows that go are as many as `doomed` picks. */
  lemma DataRowsKeptFacts(rows: seq<Row>, doomed: Row -> bool)
    ensures rows != [] ==> DataRowsKept(rows, doomed)[0] == rows[0]
    ensures rows != [] ==> |DataRowsKept(rows, doomed)| + DoomedCount(rows[1..], doomed) == |rows|
    ensures rows != [] ==> forall r :: r in DataRowsKept(rows, doomed)[1..] <==> r in rows[1..] && !doomed(r)
    ensures |rows| <= 1 ==> DataRowsKept(rows, doomed) == rows
  {
    if rows != [] {
      SurvivingFacts(rows[1..], doomed);
      assert DataRowsKept(rows, doomed)[1..] == Surviving(rows[1..], doomed);
    }
  }

  /** The first row at index `i` or later that `wanted` picks, by its row number. */
  function FirstRowFrom(rows: seq<Row>, wanted: Row -> bool, i: nat): (r: Option<nat>)
    ensures r.Some? ==> i + 1 <= r.value <= |rows| && wanted(rows[r.value - 1])
    ensures r.Some? ==> forall k :: i <= k < r.value - 1 ==> !wanted(rows[k])
    ensures r.None? ==> forall k :: i <= k < |rows| ==> !wanted(rows[k])
    decreases |rows| - i
  {
    if i >= |rows| then None
    else if wanted(rows[i]) then Some(i + 1)
    else FirstRowFrom(rows, wanted, i + 1)
  }

  /** The first data row (row number 2 or later) that `wanted` picks. */
  function FirstDataRow(rows: seq<Row>, wanted: Row -> bool): Option<nat> {
    FirstRowFrom(rows, wanted, 1)
  }

  /** A look-up that finds its row among the first rows of `a` finds the same row in
      any `b` that starts with rows `wanted` judges alike. */
  lemma {:induction false} FirstRowFromAgree(a: seq<Row>, b: seq<Row>, wanted: Row -> bool, i: nat)
    requires |a| <= |b| && forall k :: i <= k < |a| ==> wanted(a[k]) == wanted(b[k])
    requires FirstRowFrom(a, wanted, i).Some?
    ensures FirstRowFrom(b, wanted, i) == FirstRowFrom(a, wanted, i)
    decreases |a| - i
  {
    if !wanted(a[i]) {
      FirstRowFromAgree(a, b, wanted, i + 1);
    }
  }

  /** Time values are whole milliseconds: a fractional one is cut toward zero. */
  function TruncMs(x: real): int {
    if x >= 0.0 then x.Floor else -((-x).Floor)
  }

  class Sheet {
    /** Every row of the sheet, the header first. */
    var rows: seq<Row>

    constructor(rows: seq<Row>)
      ensures this.rows == rows
    {
      this.rows := rows;
    }

    /** `getLastRow()`. */
    function LastRow(): nat
      reads this
    {
      |rows|
    }

    /** The loop shared by the row look-ups: the first data row (row number 2 or
        later) that `wanted` picks, by its row number. */
    method FindDataRow(wanted: Row -> bool) returns (r: Option<nat>)
      ensures r == FirstDataRow(rows, wanted)
    {
      var i := 1;
      while i < |rows|
        invariant 1 <= i <= |rows| || (|rows| == 0 && i == 1)
        invariant FirstDataRow(rows, wanted) == FirstRowFrom(rows, wanted, i)
      {
        if wanted(rows[i]) {
          return Some(i + 1);
        }
        i := i + 1;
      }
      return None;
    }

    /** `appendRow(row)`. */
    method AppendRow(row: Row)
      modifies this
      ensures rows == old(rows) + [row]
    {
      rows := rows + [row];
    }

    /** `getRange(getLastRow() + 1, 1, |newRows|, width).setValues(newRows)`. */
    method AppendRows(newRows: seq<Row>)
      modifies this
      ensures rows == old(rows) + newRows
    {
      rows := rows + newRows;
    }

    /** `deleteRow(r)`: the rows below move up by one. */
    method DeleteRow(r: nat)
      requires 1 <= r <= |rows|
      modifies this
      ensures rows == old(rows)[..r - 1] + old(rows)[r..]
    {
      rows := rows[..r - 1] + rows[r..];
    }

    /** `getRange(r, col + 1, 1, |cells|).setValues([cells])`. */
    method SetCells(r: nat, col: nat, cells: seq<Cell>)
      requires 1 <= r <= |rows|
      modifies this
      ensures rows == old(rows)[r - 1 := Overwrite(old(rows)[r - 1], col, cells)]
    {
      rows := rows[r - 1 := Overwrite(rows[r - 1], col, cells)];
    }

    /** The loop shared by the retention clean-ups: the data rows are read once, then
        visited from the last to the first, and each one `doomed` picks is deleted by
        its row number. The header is never visited. */
    method DeleteDataRowsWhere(doomed: Row -> bool) returns (deleted: nat)
      modifies this
      ensures old(|rows|) == 0 ==> rows == [] && deleted == 0
      ensures old(|rows|) > 0 ==>
        rows == [old(rows)[0]] + Surviving(old(rows)[1..], doomed) && deleted == DoomedCount(old(rows)[1..], doomed)
    {
      if |rows| == 0 {
        return 0;
      }
      var header := rows[0];
      var values := rows[1..];
      deleted := 0;
      var i := |values|;
      PendingEnds(header, values, doomed);
      while i > 0
        invariant 0 <= i <= |values|
        invariant rows == Pending(header, values, i, doomed)
        invariant deleted == DoomedCount(values[i..], doomed)
      {
        i := i - 1;
        DeleteStep(header, values, i, doomed);
        if doomed(values[i]) {
          DeleteRow(i + 2);
          deleted := deleted + 1;
        }
      }
    }
  }

  /** The rows while the clean-up loop is at `i`: the rows from `i` on are filtered,
      the ones before it are not yet looked at. */
  function Pending(header: Row, values: seq<Row>, i: nat, doomed: Row -> bool): seq<Row>
    requires i <= |values|
  {
    [header] + values[..i] + Surviving(values[i..], doomed)
  }

  /** Before the loop nothing is filtered; after it everything is. */
  lemma PendingEnds(header: Row, values: seq<Row>, doomed: Row -> bool)
    ensures Pending(header, values, |values|, doomed) == [header] + values
    ensures Pending(header, values, 0, doomed) == [header] + Surviving(values, doomed)
  {
    assert values[..|values|] == values && values[|values|..] == [];
    assert values[..0] == [] && values[0..] == values;
  }

  /** One round of the clean-up loop, on the rows as they stand. */
  lemma DeleteStep(header: Row, values: seq<Row>, i: nat, doomed: Row -> bool)
    requires i < |values|
    ensures var rows := Pending(header, values, i + 1, doomed);
      |rows| >= i + 2 && rows[i + 1] == values[i] &&
      (doomed(values[i]) ==> rows[..i + 1] + rows[i + 2..] == Pending(header, values, i, doomed)) &&
      (!doomed(values[i]) ==> rows == Pending(header, values, i, doomed))
    ensures DoomedCount(values[i..], doomed) == (if doomed(values[i]) then 1 else 0) + DoomedCount(values[i + 1..], doomed)
  {
    assert values[i..][0] == values[i] && values[i..][1..] == values[i + 1..];
    assert values[..i + 1] == values[..i] + [values[i]];
    var rows := [header] + values[..i + 1] + Surviving(values[i + 1..], doomed);
    assert rows[..i + 1] == [header] + values[..i];
    assert rows[i + 2..] == Surviving(values[i + 1..], doomed);
  }
}
