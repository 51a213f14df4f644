/**
 * One frame's contact map as the reporter stores it (`_collect_contact_map`,
 * mdtools/openmm/reporter.py): the coordinates of the true entries of the
 * sparse matrix in COO form, two index arrays narrowed to numpy int16.
 */
module Contacts {

  newtype int16 = x: int | -0x8000 <= x < 0x8000

  /** numpy's `astype("int16")` on an integer: keeps the low 16 bits, read as signed. */
  function ToInt16(x: int): (r: int16)
    ensures (r as int - x) % 0x1_0000 == 0
    ensures -0x8000 <= x < 0x8000 ==> r as int == x
  {
    var m := x % 0x1_0000;
    if m < 0x8000 then m as int16 else (m - 0x1_0000) as int16
  }

  /** A true entry (row, column) of a sparse boolean matrix. */
  datatype Entry = Entry(row: int, col: int)

  /** The contact matrix the distance routine returns: its true entries, in storage order. */
  datatype SparseMatrix = SparseMatrix(entries: seq<Entry>)

  /** COO row and column index arrays of one frame. */
  datatype CooIndices = CooIndices(rows: seq<int16>, cols: seq<int16>)

  /** `tocoo()` followed by the int16 cast of `coo.row` and `coo.col`. */
  function ToCoo(m: SparseMatrix): (c: CooIndices)
    ensures |c.rows| == |c.cols| == |m.entries|
    ensures forall k :: 0 <= k < |m.entries| ==>
      c.rows[k] == ToInt16(m.entries[k].row) && c.cols[k] == ToInt16(m.entries[k].col)
  {
    CooIndices(
      seq(|m.entries|, k requires 0 <= k < |m.entries| => ToInt16(m.entries[k].row)),
      seq(|m.entries|, k requires 0 <= k < |m.entries| => ToInt16(m.entries[k].col)))
  }

  /** What a reader rebuilds from the two stored index arrays. */
  function FromCoo(c: CooIndices): (m: SparseMatrix)
    requires |c.rows| == |c.cols|
    ensures |m.entries| == |c.rows|
  {
    SparseMatrix(seq(|c.rows|, k requires 0 <= k < |c.rows| => Entry(c.rows[k] as int, c.cols[k] as int)))
  }

  /** Every index of the matrix survives the int16 narrowing. */
  predicate FitsInt16(m: SparseMatrix) {
    forall k :: 0 <= k < |m.entries| ==>
      -0x8000 <= m.entries[k].row < 0x8000 && -0x8000 <= m.entries[k].col < 0x8000
  }

  /** When the indices fit in int16, the stored COO arrays lose nothing. */
  lemma CooRoundTrip(m: SparseMatrix)
    requires FitsInt16(m)
    ensures FromCoo(ToCoo(m)) == m
  {
    var back := FromCoo(ToCoo(m));
    assert forall k :: 0 <= k < |m.entries| ==> back.entries[k] == m.entries[k];
  }

  /** An index of 0x8000 or more comes back as a different, negative, index. */
  lemma NarrowingWraps(m: SparseMatrix, k: nat)
    requires k < |m.entries| && 0x8000 <= m.entries[k].row < 0x1_0000
    ensures FromCoo(ToCoo(m)).entries[k].row == m.entries[k].row - 0x1_0000 < 0
  {}
}
