/**
 * The part of gonum's `mat` package the toolkit relies on, on values: a matrix
 * is the sequence of its rows.
 */
module Matrices {

  type Matrix = seq<seq<real>>

  /** `m` has `r` rows of `c` entries. */
  predicate IsMatrix(m: Matrix, r: nat, c: nat)
  {
    |m| == r && forall i | 0 <= i < r :: |m[i]| == c
  }

  /** The rows of `m` back to back: its entries in row-major order. */
  function Flatten(m: Matrix): seq<real>
  {
    if |m| == 0 then [] else m[0] + Flatten(m[1..])
  }

  /** `mat.NewDense(r, c, data)`: `data` cut into `r` rows of `c` entries; flattening gives `data` back. */
  function Dense(r: nat, c: nat, data: seq<real>): (m: Matrix)
    requires |data| == r * c
    ensures IsMatrix(m, r, c)
    ensures Flatten(m) == data
  {
    if r == 0 then []
    else
      assert |data[c..]| == (r - 1) * c;
      [data[..c]] + Dense(r - 1, c, data[c..])
  }

  /** Appending a row appends its entries. */
  lemma {:induction false} FlattenAppend(m: Matrix, row: seq<real>)
    ensures Flatten(m + [row]) == Flatten(m) + row
  {
    if |m| > 0 {
      assert (m + [row])[1..] == m[1..] + [row];
      FlattenAppend(m[1..], row);
    }
  }

  /** Cutting a flattened `r` by `c` matrix into rows of `c` gives the matrix back. */
  lemma {:induction false} DenseOfFlatten(m: Matrix, r: nat, c: nat)
    requires IsMatrix(m, r, c)
    ensures |Flatten(m)| == r * c
    ensures Dense(r, c, Flatten(m)) == m
  {
    if r > 0 {
      DenseOfFlatten(m[1..], r - 1, c);
      assert Flatten(m)[..c] == m[0];
      assert Flatten(m)[c..] == Flatten(m[1..]);
    }
  }

  /** `m.T()` of an `r` by `c` matrix. */
  function Transpose(m: Matrix, r: nat, c: nat): (t: Matrix)
    requires IsMatrix(m, r, c)
    ensures IsMatrix(t, c, r)
    ensures forall i, j | 0 <= i < c && 0 <= j < r :: t[i][j] == m[j][i]
  {
    seq(c, i requires 0 <= i < c => seq(r, j requires 0 <= j < r => m[j][i]))
  }

  /** Transposing twice gives the matrix back. */
  lemma TransposeTwice(m: Matrix, r: nat, c: nat)
    requires IsMatrix(m, r, c)
    ensures Transpose(Transpose(m, r, c), c, r) == m
  {
    var t := Transpose(Transpose(m, r, c), c, r);
    forall i | 0 <= i < r
      ensures t[i] == m[i]
    {
    }
  }

  /** `mat.Col(nil, j, m)`: column `j` of a matrix with `r` rows. */
  function Col(m: Matrix, r: nat, j: nat): (v: seq<real>)
    requires |m| == r && forall i | 0 <= i < r :: j < |m[i]|
    ensures |v| == r && forall i | 0 <= i < r :: v[i] == m[i][j]
  {
    seq(r, i requires 0 <= i < r => m[i][j])
  }

  /** Entry `i` of the product of `m`'s transpose with the vector `v`: column `i` of `m` dotted with `v`. */
  function ColumnDot(m: Matrix, i: nat, v: seq<real>, n: nat): real
    requires n <= |m| && n <= |v| && forall k | 0 <= k < n :: i < |m[k]|
  {
    if n == 0 then 0.0 else ColumnDot(m, i, v, n - 1) + m[n - 1][i] * v[n - 1]
  }
}
