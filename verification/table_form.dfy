/**
  The table editor's form state (src/components/ContentCreator/Forms/TableForm.tsx): a header row
  and body rows that every handler keeps rectangular, one cell per header in every row. Header and
  row removal refuse to remove the last one.
 */
module TableForm {
  import opened Common
  import opened ContentTypes
  import opened SeqOps

  /** Every row has exactly one cell per header. */
  predicate Rectangular(headers: seq<TableCell>, rows: seq<TableRow>)
  {
    forall i :: 0 <= i < |rows| ==> |rows[i].cells| == |headers|
  }

  /** The `addHeader` row map: every row gets one more empty cell at the end, row `i` with `ids[i]`. */
  function WithNewCell(rows: seq<TableRow>, ids: seq<Id>): (r: seq<TableRow>)
    requires |ids| >= |rows|
    ensures |r| == |rows|
    ensures forall i :: 0 <= i < |rows| ==>
      && r[i].id == rows[i].id
      && |r[i].cells| == |rows[i].cells| + 1
      && r[i].cells[..|rows[i].cells|] == rows[i].cells
      && r[i].cells[|rows[i].cells|] == TableCell(ids[i], "")
  {
    seq(|rows|, i requires 0 <= i < |rows| => rows[i].(cells := rows[i].cells + [TableCell(ids[i], "")]))
  }

  /** The `removeHeader` row map: every row drops its cell at `index`, spliced as the headers are. */
  function WithoutCell(rows: seq<TableRow>, index: int): (r: seq<TableRow>)
    ensures |r| == |rows|
    ensures forall i :: 0 <= i < |rows| ==> r[i].id == rows[i].id && r[i].cells == SpliceRemove(rows[i].cells, index)
  {
    seq(|rows|, i requires 0 <= i < |rows| => rows[i].(cells := SpliceRemove(rows[i].cells, index)))
  }

  /** Adding a header and a cell to every row keeps the table rectangular. */
  lemma AddHeaderKeepsRectangular(headers: seq<TableCell>, rows: seq<TableRow>, h: TableCell, ids: seq<Id>)
    requires Rectangular(headers, rows) && |ids| >= |rows|
    ensures Rectangular(headers + [h], WithNewCell(rows, ids))
  {
  }

  /**
    Removing the header at `index` and the cell at `index` from every row keeps the table
    rectangular, for every index: all rows are spliced at the same normalised position as the
    headers, so either one column goes or none does.
   */
  lemma RemoveHeaderKeepsRectangular(headers: seq<TableCell>, rows: seq<TableRow>, index: int)
    requires Rectangular(headers, rows)
    ensures Rectangular(SpliceRemove(headers, index), WithoutCell(rows, index))
  {
  }

  /** A new row built from the header count fits the table. */
  lemma AddRowKeepsRectangular(headers: seq<TableCell>, rows: seq<TableRow>, ids: seq<Id>)
    requires Rectangular(headers, rows) && |ids| >= |headers| + 1
    ensures Rectangular(headers, rows + [CreateDefaultTableRow(|headers|, ids)])
  {
  }

  class TableFormState {
    var headers: seq<TableCell>
    var rows: seq<TableRow>

    /** The form's invariant: rectangular, with at least one header and one row. */
    predicate Valid()
      reads this
    {
      Rectangular(headers, rows) && |headers| >= 1 && |rows| >= 1
    }

    /**
      `initialData?.headers || [one empty header]`, `initialData?.rows || [one row of one cell]`:
      given data is taken as it is; without it the form starts as a one-by-one table with
      `ids[0]` for the header, `ids[1]` for the row and `ids[2]` for its cell.
     */
    constructor(initial: Option<(seq<TableCell>, seq<TableRow>)>, ids: seq<Id>)
      requires initial.None? ==> |ids| >= 3
      ensures initial.Some? ==> headers == initial.value.0 && rows == initial.value.1
      ensures initial.None? ==>
        && headers == [TableCell(ids[0], "")]
        && rows == [TableRow(ids[1], [TableCell(ids[2], "")])]
        && Valid()
    {
      if initial.Some? {
        headers := initial.value.0;
        rows := initial.value.1;
      } else {
        headers := [TableCell(ids[0], "")];
        rows := [TableRow(ids[1], [TableCell(ids[2], "")])];
      }
    }

    /**
      `addHeader()`: append an empty header (`ids[0]`) and an empty cell to every row (row `i`
      gets `ids[i + 1]`).
     */
    method AddHeader(ids: seq<Id>)
      requires |ids| >= |rows| + 1
      modifies this`headers, this`rows
      ensures headers == old(headers) + [TableCell(ids[0], "")]
      ensures rows == WithNewCell(old(rows), ids[1..])
      ensures old(Valid()) ==> Valid()
    {
      if Rectangular(headers, rows) {
        AddHeaderKeepsRectangular(headers, rows, TableCell(ids[0], ""), ids[1..]);
      }
      headers := headers + [TableCell(ids[0], "")];
      rows := WithNewCell(rows, ids[1..]);
    }

    /**
      `removeHeader(index)`: with at most one header, nothing; otherwise header `index` and cell
      `index` of every row are spliced out.
     */
    method RemoveHeader(index: int)
      modifies this`headers, this`rows
      ensures |old(headers)| <= 1 ==> headers == old(headers) && rows == old(rows)
      ensures |old(headers)| > 1 ==> headers == SpliceRemove(old(headers), index) && rows == WithoutCell(old(rows), index)
      ensures old(Valid()) ==> Valid()
    {
      if |headers| <= 1 {
        return;
      }
      if Rectangular(headers, rows) {
        RemoveHeaderKeepsRectangular(headers, rows, index);
      }
      headers := SpliceRemove(headers, index);
      rows := WithoutCell(rows, index);
    }

    /** `updateHeader(index, content)`: only that header's text changes. */
    method UpdateHeader(index: int, content: string)
      requires 0 <= index < |headers|
      modifies this`headers
      ensures |headers| == |old(headers)|
      ensures headers[index] == TableCell(old(headers)[index].id, content)
      ensures forall k :: 0 <= k < |headers| && k != index ==> headers[k] == old(headers)[k]
      ensures old(Valid()) ==> Valid()
    {
      headers := headers[index := headers[index].(content := content)];
    }

    /** `addRow()`: append a row (`ids[0]`) with one empty cell per header. */
    method AddRow(ids: seq<Id>)
      requires |ids| >= |headers| + 1
      modifies this`rows
      ensures rows == old(rows) + [CreateDefaultTableRow(|headers|, ids)]
      ensures old(Valid()) ==> Valid()
    {
      if Rectangular(headers, rows) {
        AddRowKeepsRectangular(headers, rows, ids);
      }
      rows := rows + [CreateDefaultTableRow(|headers|, ids)];
    }

    /** `removeRow(index)`: with at most one row, nothing; otherwise row `index` is spliced out. */
    method RemoveRow(index: int)
      modifies this`rows
      ensures |old(rows)| <= 1 ==> rows == old(rows)
      ensures |old(rows)| > 1 ==> rows == SpliceRemove(old(rows), index)
      ensures |old(rows)| > 1 && index < |old(rows)| ==> |rows| == |old(rows)| - 1
      ensures old(Valid()) ==> Valid()
    {
      if |rows| <= 1 {
        return;
      }
      rows := SpliceRemove(rows, index);
    }

    /** `updateCell(rowIndex, cellIndex, content)`: only that cell's text changes. */
    method UpdateCell(rowIndex: int, cellIndex: int, content: string)
      requires 0 <= rowIndex < |rows| && 0 <= cellIndex < |rows[rowIndex].cells|
      modifies this`rows
      ensures |rows| == |old(rows)|
      ensures forall k :: 0 <= k < |rows| && k != rowIndex ==> rows[k] == old(rows)[k]
      ensures rows[rowIndex].id == old(rows)[rowIndex].id
      ensures |rows[rowIndex].cells| == |old(rows)[rowIndex].cells|
      ensures rows[rowIndex].cells[cellIndex] == TableCell(old(rows)[rowIndex].cells[cellIndex].id, content)
      ensures forall k :: 0 <= k < |rows[rowIndex].cells| && k != cellIndex ==>
        rows[rowIndex].cells[k] == old(rows)[rowIndex].cells[k]
      ensures old(Valid()) ==> Valid()
    {
      var row := rows[rowIndex];
      rows := rows[rowIndex := row.(cells := row.cells[cellIndex := row.cells[cellIndex].(content := content)])];
    }
  }
}
