/** The small part of numpy the strain toolkit relies on: two-dimensional arrays of
    reals, their columns, the identity, element-wise sums and the matrix product. */
module Matrices {

  /** A two-dimensional array, row by row. */
  type Matrix = seq<seq<real>>

  /** Number of columns (that of the first row; 0 for an empty matrix). */
  function Width(m: Matrix): nat {
    if |m| == 0 then 0 else |m[0]|
  }

  /** Every row has the same length, as in any numpy array. */
  predicate Rectangular(m: Matrix) {
    forall i :: 0 <= i < |m| ==> |m[i]| == Width(m)
  }

  /** The array has shape (3, 3). */
  predicate Is3x3(m: Matrix) {
    |m| == 3 && forall i :: 0 <= i < 3 ==> |m[i]| == 3
  }

  /** np.dot of two vectors: the sum of the products of their entries. */
  function Dot(u: seq<real>, v: seq<real>): real
    requires |u| == |v|
  {
    if |u| == 0 then 0.0 else u[0] * v[0] + Dot(u[1..], v[1..])
  }

  /** m[:, j] */
  function Column(m: Matrix, j: nat): (c: seq<real>)
    requires forall i :: 0 <= i < |m| ==> j < |m[i]|
    ensures |c| == |m|
  {
    seq(|m|, i requires 0 <= i < |m| => m[i][j])
  }

  /** c * v */
  function Scale(c: real, v: seq<real>): (w: seq<real>)
    ensures |w| == |v|
  {
    seq(|v|, j requires 0 <= j < |v| => c * v[j])
  }

  /** u + v, entry by entry */
  function Plus(u: seq<real>, v: seq<real>): (w: seq<real>)
    requires |u| == |v|
    ensures |w| == |u|
  {
    seq(|u|, j requires 0 <= j < |u| => u[j] + v[j])
  }

  /** np.eye(3) */
  const Identity3: Matrix := [[1.0, 0.0, 0.0], [0.0, 1.0, 0.0], [0.0, 0.0, 1.0]]

  /** a + b for two 3x3 arrays */
  function Add(a: Matrix, b: Matrix): (c: Matrix)
    requires Is3x3(a) && Is3x3(b)
    ensures Is3x3(c)
  {
    seq(3, i requires 0 <= i < 3 => seq(3, j requires 0 <= j < 3 => a[i][j] + b[i][j]))
  }

  /** A matrix equal to its own transpose. */
  predicate Symmetric3(m: Matrix)
    requires Is3x3(m)
  {
    forall i, j :: 0 <= i < 3 && 0 <= j < 3 ==> m[i][j] == m[j][i]
  }

  /** np.dot(a, b) for a matrix a whose rows are as long as b has rows. */
  function MatMul(a: Matrix, b: Matrix): (c: Matrix)
    requires Rectangular(b)
    requires forall i :: 0 <= i < |a| ==> |a[i]| == |b|
    ensures |c| == |a| && forall i :: 0 <= i < |c| ==> |c[i]| == Width(b)
  {
    seq(|a|, i requires 0 <= i < |a| =>
      seq(Width(b), j requires 0 <= j < Width(b) => Dot(a[i], Column(b, j))))
  }

  /** Two 3x3 matrices with the same entries are equal. */
  lemma Equal3x3(a: Matrix, b: Matrix)
    requires Is3x3(a) && Is3x3(b)
    requires forall i, j :: 0 <= i < 3 && 0 <= j < 3 ==> a[i][j] == b[i][j]
    ensures a == b
  {
    assert a[0] == b[0] && a[1] == b[1] && a[2] == b[2];
  }

  /** A dot product of two three-entry vectors is the three-term sum. */
  lemma {:induction false} Dot3(u: seq<real>, v: seq<real>)
    requires |u| == 3 && |v| == 3
    ensures Dot(u, v) == u[0] * v[0] + u[1] * v[1] + u[2] * v[2]
  {
    assert Dot(u[2..][1..], v[2..][1..]) == 0.0;
    assert Dot(u[2..], v[2..]) == u[2] * v[2];
    assert u[1..][1..] == u[2..] && v[1..][1..] == v[2..];
    assert Dot(u[1..], v[1..]) == u[1] * v[1] + Dot(u[2..], v[2..]);
  }

  /** Row i of a product by a three-row matrix is a combination of its three rows,
      weighted by row i of the left factor. */
  lemma MatMul3Row(d: Matrix, cell: Matrix, i: nat)
    requires Is3x3(d) && Rectangular(cell) && |cell| == 3 && i < 3
    ensures MatMul(d, cell)[i] ==
      Plus(Plus(Scale(d[i][0], cell[0]), Scale(d[i][1], cell[1])), Scale(d[i][2], cell[2]))
  {
    var lhs := MatMul(d, cell)[i];
    var rhs := Plus(Plus(Scale(d[i][0], cell[0]), Scale(d[i][1], cell[1])), Scale(d[i][2], cell[2]));
    assert |lhs| == |rhs|;
    forall j | 0 <= j < |lhs| ensures lhs[j] == rhs[j] {
      Dot3(d[i], Column(cell, j));
    }
  }
}
