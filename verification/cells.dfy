/** Worksheet cells, value matrices and the host's range descriptor. */
module Cells {
  import opened Base

  /** A cell as the host reports it; numbers are abstracted to integers. */
  datatype Cell = Text(text: string) | Number(n: int) | Boolean(b: bool)

  /** Rows of cells, as the host's `values`, `formulas` and `numberFormat` arrays. */
  type Matrix = seq<seq<Cell>>

  /** What one host read of the selected range supplies. */
  datatype RangeReading = RangeReading(
    address: string,
    rowCount: nat,
    columnCount: nat,
    values: Matrix,
    formulas: Matrix,
    numberFormat: Matrix)

  /** `m[i][j]` in JavaScript: `undefined` (here `None`) outside the matrix. */
  function Lookup(m: Matrix, i: int, j: int): (c: Option<Cell>)
    ensures c.Some? <==> 0 <= i < |m| && 0 <= j < |m[i]|
  {
    if 0 <= i < |m| && 0 <= j < |m[i]| then Some(m[i][j]) else None
  }

  /** A formula cell: a string starting with the formula marker `=`. */
  predicate IsFormulaCell(c: Cell) {
    c.Text? && |c.text| > 0 && c.text[0] == '='
  }

  function RowHasFormula(row: seq<Cell>): (b: bool)
    ensures b <==> exists j :: 0 <= j < |row| && IsFormulaCell(row[j])
  {
    if row == [] then false
    else if IsFormulaCell(row[0]) then true
    else
      var rest := RowHasFormula(row[1..]);
      assert forall j :: 1 <= j < |row| ==> row[j] == row[1..][j - 1];
      rest
  }

  /** The `is_formula` flag of a cell edit: some cell of the matrix holds a formula. */
  function HasFormula(m: Matrix): (b: bool)
    ensures b <==> exists i, j :: 0 <= i < |m| && 0 <= j < |m[i]| && IsFormulaCell(m[i][j])
  {
    if m == [] then false
    else if RowHasFormula(m[0]) then true
    else
      var rest := HasFormula(m[1..]);
      assert forall i :: 1 <= i < |m| ==> m[i] == m[1..][i - 1];
      rest
  }
}
