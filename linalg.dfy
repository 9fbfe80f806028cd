/**
 * Dense vectors and matrices of reals, as the host vector and matrix types
 * hold them, with the zero-filled values used where storage is allocated.
 */
module Linalg {

  /** A dense vector. */
  type Vector = seq<real>

  /** A dense matrix given by its rows. */
  type Matrix = seq<seq<real>>

  /** The matrix has `rows` rows of `cols` entries each. */
  predicate HasShape(m: Matrix, rows: nat, cols: nat) {
    |m| == rows && forall r :: 0 <= r < rows ==> |m[r]| == cols
  }

  function ZeroVector(size: nat): (v: Vector)
    ensures |v| == size
    ensures forall i :: 0 <= i < size ==> v[i] == 0.0
  {
    seq(size, _ => 0.0)
  }

  function ZeroMatrix(rows: nat, cols: nat): (m: Matrix)
    ensures HasShape(m, rows, cols)
  {
    seq(rows, _ => ZeroVector(cols))
  }

  /** A matrix of the same dimensions as m, entries unspecified (zero here). */
  function ZeroMatrixShaped(m: Matrix): (z: Matrix)
    ensures |z| == |m|
    ensures forall r :: 0 <= r < |m| ==> |z[r]| == |m[r]|
  {
    seq(|m|, r requires 0 <= r < |m| => ZeroVector(|m[r]|))
  }
}
