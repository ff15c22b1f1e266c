/**
 * The positional matrix diff of the change detector: which cells of the
 * current reading differ from the last-seen snapshot of the same address.
 */
module CellDiff {
  import opened Base
  import opened Cells
  import opened Events

  /** The formula read at (i, j): absent without a formula matrix or outside it. */
  function FormulaAt(f: Option<Matrix>, i: int, j: int): Option<Cell> {
    match f
    case None => None
    case Some(m) => Lookup(m, i, j)
  }

  /**
   * Cell (i, j) takes part in the comparison: the outer lengths agree, row i
   * has the same length in both readings, and j lies inside that row.
   */
  predicate Compared(pv: Matrix, cv: Matrix, i: int, j: int) {
    && |pv| == |cv|
    && 0 <= i < |cv|
    && |pv[i]| == |cv[i]|
    && 0 <= j < |cv[i]|
  }

  /** The value changed, or both readings carry formulas and the formula there changed. */
  predicate Differs(pv: Matrix, pf: Option<Matrix>, cv: Matrix, cf: Option<Matrix>, i: int, j: int) {
    || Lookup(pv, i, j) != Lookup(cv, i, j)
    || (pf.Some? && cf.Some? && FormulaAt(pf, i, j) != FormulaAt(cf, i, j))
  }

  /** Cell (i, j) must be reported as changed. */
  predicate Reportable(pv: Matrix, pf: Option<Matrix>, cv: Matrix, cf: Option<Matrix>, i: int, j: int) {
    Compared(pv, cv, i, j) && Differs(pv, pf, cv, cf, i, j)
  }

  /** The record pushed for a changed cell. */
  function Record(pv: Matrix, pf: Option<Matrix>, cv: Matrix, cf: Option<Matrix>, i: nat, j: nat): CellChange
    requires Compared(pv, cv, i, j)
  {
    CellChange(i, j, pv[i][j], cv[i][j], FormulaAt(pf, i, j), FormulaAt(cf, i, j))
  }

  /** The (row, column) positions a list of records reports. */
  function Positions(r: seq<CellChange>): set<(nat, nat)> {
    set k | 0 <= k < |r| :: (r[k].row, r[k].column)
  }

  /** Every record reports a compared cell with that cell's before/after contents. */
  predicate Faithful(pv: Matrix, pf: Option<Matrix>, cv: Matrix, cf: Option<Matrix>, r: seq<CellChange>) {
    forall k :: 0 <= k < |r| ==>
      Compared(pv, cv, r[k].row, r[k].column) && r[k] == Record(pv, pf, cv, cf, r[k].row, r[k].column)
  }

  predicate Before(a: CellChange, b: CellChange) {
    a.row < b.row || (a.row == b.row && a.column < b.column)
  }

  /** Records in strictly increasing row-major order, hence no position twice. */
  predicate RowMajor(r: seq<CellChange>) {
    forall k, l :: 0 <= k < l < |r| ==> Before(r[k], r[l])
  }

  lemma PositionsAppend(a: seq<CellChange>, b: seq<CellChange>)
    ensures Positions(a + b) == Positions(a) + Positions(b)
  {
    var ab := a + b;
    forall p | p in Positions(ab)
      ensures p in Positions(a) + Positions(b)
    {
      var k :| 0 <= k < |ab| && p == (ab[k].row, ab[k].column);
      if k < |a| {
        assert ab[k] == a[k];
      } else {
        assert ab[k] == b[k - |a|];
      }
    }
    forall p | p in Positions(a) + Positions(b)
      ensures p in Positions(ab)
    {
      if p in Positions(a) {
        var k :| 0 <= k < |a| && p == (a[k].row, a[k].column);
        assert ab[k] == a[k];
      } else {
        var k :| 0 <= k < |b| && p == (b[k].row, b[k].column);
        assert ab[k + |a|] == b[k];
      }
    }
  }

  lemma PositionsAtMostOne(r: seq<CellChange>)
    requires |r| <= 1
    ensures Positions(r) == if r == [] then {} else {(r[0].row, r[0].column)}
  {
  }

  /** The inner loop over the columns j.. of row i (rows of equal length). */
  function DiffColumns(pv: Matrix, pf: Option<Matrix>, cv: Matrix, cf: Option<Matrix>, i: nat, j: nat): (r: seq<CellChange>)
    requires |pv| == |cv| && i < |cv| && |pv[i]| == |cv[i]| && j <= |cv[i]|
    ensures Faithful(pv, pf, cv, cf, r)
    ensures RowMajor(r)
    ensures forall k :: 0 <= k < |r| ==> r[k].row == i && j <= r[k].column
    ensures forall a: nat, c: nat :: (a, c) in Positions(r) <==> a == i && j <= c && Reportable(pv, pf, cv, cf, a, c)
    decreases |cv[i]| - j
  {
    if j == |cv[i]| then []
    else
      var rest := DiffColumns(pv, pf, cv, cf, i, j + 1);
      var here := if Differs(pv, pf, cv, cf, i, j) then [Record(pv, pf, cv, cf, i, j)] else [];
      PositionsAtMostOne(here);
      PositionsAppend(here, rest);
      here + rest
  }

  /** The outer loop over the rows i.. (outer lengths equal); a row of unequal lengths is skipped. */
  function DiffRows(pv: Matrix, pf: Option<Matrix>, cv: Matrix, cf: Option<Matrix>, i: nat): (r: seq<CellChange>)
    requires |pv| == |cv| && i <= |cv|
    ensures Faithful(pv, pf, cv, cf, r)
    ensures RowMajor(r)
    ensures forall k :: 0 <= k < |r| ==> i <= r[k].row
    ensures forall a: nat, c: nat :: (a, c) in Positions(r) <==> i <= a && Reportable(pv, pf, cv, cf, a, c)
    decreases |cv| - i
  {
    if i == |cv| then []
    else
      var rest := DiffRows(pv, pf, cv, cf, i + 1);
      var here := if |pv[i]| == |cv[i]| then DiffColumns(pv, pf, cv, cf, i, 0) else [];
      PositionsAppend(here, rest);
      here + rest
  }

  /**
   * The changed-cell list of one detector poll. Cell (i, j) is reported exactly
   * when it is compared and differs; every record carries that cell's contents;
   * records come in row-major order without repetition; a reading whose row
   * count differs from the snapshot's is not compared at all.
   */
  function ChangedCells(pv: Matrix, pf: Option<Matrix>, cv: Matrix, cf: Option<Matrix>): (r: seq<CellChange>)
    ensures Faithful(pv, pf, cv, cf, r)
    ensures RowMajor(r)
    ensures forall a: nat, c: nat :: (a, c) in Positions(r) <==> Reportable(pv, pf, cv, cf, a, c)
    ensures |pv| != |cv| ==> r == []
  {
    if |pv| == |cv| then DiffRows(pv, pf, cv, cf, 0) else []
  }

  /** Comparing a reading with itself reports nothing. */
  lemma IdenticalReadingsReportNothing(v: Matrix, f: Option<Matrix>)
    ensures ChangedCells(v, f, v, f) == []
  {
    IdenticalRows(v, f, 0);
  }

  lemma {:induction false} IdenticalColumns(v: Matrix, f: Option<Matrix>, i: nat, j: nat)
    requires i < |v| && j <= |v[i]|
    ensures DiffColumns(v, f, v, f, i, j) == []
    decreases |v[i]| - j
  {
    if j < |v[i]| {
      IdenticalColumns(v, f, i, j + 1);
    }
  }

  lemma {:induction false} IdenticalRows(v: Matrix, f: Option<Matrix>, i: nat)
    requires i <= |v|
    ensures DiffRows(v, f, v, f, i) == []
    decreases |v| - i
  {
    if i < |v| {
      IdenticalColumns(v, f, i, 0);
      IdenticalRows(v, f, i + 1);
    }
  }

  /** A 2×2 range with one value changed at (1, 0) yields exactly one record for that cell. */
  lemma OneEditInTwoByTwo(a: Cell, b: Cell, c: Cell, d: Cell, c': Cell, f: Matrix)
    requires c != c'
    ensures ChangedCells([[a, b], [c, d]], Some(f), [[a, b], [c', d]], Some(f))
         == [CellChange(1, 0, c, c', Lookup(f, 1, 0), Lookup(f, 1, 0))]
  {
    var pv: Matrix := [[a, b], [c, d]];
    var cv: Matrix := [[a, b], [c', d]];
    var pf := Some(f);
    assert DiffColumns(pv, pf, cv, pf, 0, 2) == [];
    assert DiffColumns(pv, pf, cv, pf, 0, 1) == [];
    assert DiffColumns(pv, pf, cv, pf, 0, 0) == [];
    assert DiffColumns(pv, pf, cv, pf, 1, 2) == [];
    assert DiffColumns(pv, pf, cv, pf, 1, 1) == [];
    assert DiffColumns(pv, pf, cv, pf, 1, 0) == [Record(pv, pf, cv, pf, 1, 0)];
    assert DiffRows(pv, pf, cv, pf, 2) == [];
    assert DiffRows(pv, pf, cv, pf, 1) == [Record(pv, pf, cv, pf, 1, 0)];
  }
}
