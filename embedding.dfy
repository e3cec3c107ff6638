/** Embedding matrices and the row gather shared by the centroid strategies. */
module Embedding {

  /** One node embedding (a row of Z), or one centroid. */
  type Vector = seq<real>

  /** A matrix stored by rows: Z is N x d, a centroid set is k x d, Q and P are N x k. */
  type Matrix = seq<Vector>

  /** Every index addresses a row of `z`. */
  predicate RowIndices(z: Matrix, idx: seq<nat>)
  {
    forall k :: 0 <= k < |idx| ==> idx[k] < |z|
  }

  /** `rows` holds, in order, the rows of `z` named by `idx`. */
  predicate Gathered(z: Matrix, idx: seq<nat>, rows: Matrix)
    requires RowIndices(z, idx)
  {
    |rows| == |idx| && forall k :: 0 <= k < |idx| ==> rows[k] == z[idx[k]]
  }

  /**
   * The loop both strategies end with: for each selected node, append its
   * embedding row to the list of centroids. `z` is a value, so it is left unchanged.
   */
  method GatherRows(z: Matrix, idx: seq<nat>) returns (rows: Matrix)
    requires RowIndices(z, idx)
    ensures Gathered(z, idx, rows)
  {
    rows := [];
    var i := 0;
    while i < |idx|
      invariant 0 <= i <= |idx|
      invariant |rows| == i
      invariant forall k :: 0 <= k < i ==> rows[k] == z[idx[k]]
    {
      rows := rows + [z[idx[i]]];
      i := i + 1;
    }
  }
}
