/** The strain toolkit of src/utils.py: the in-plane orthogonality check, the strain
    series, the quadratic energy model and the two lattice deformers. */
module Utils {
  import opened Errors
  import opened Matrices

  /** Default tolerance of check_xy_orthogonality. */
  const DefaultTolerance: real := 0.0001
  /** Default arguments of generate_strain_list. */
  const DefaultAbsoluteValue: real := 0.1
  const DefaultStep: real := 0.01
  /** Above this maximum strain the harmonic approximation is doubtful: only a warning. */
  const WarningThreshold: real := 0.2

  function Abs(x: real): real {
    if x < 0.0 then -x else x
  }

  // ---------------------------------------------------------------------------
  // check_xy_orthogonality

  /** check_xy_orthogonality as written: rejects anything but a 3x3 array, then compares
      the dot product of the first two COLUMNS, lattice[:3, 0] and lattice[:3, 1],
      strictly against the tolerance. */
  function CheckXyOrthogonality(lattice: Matrix, tol: real := DefaultTolerance): (r: Result<bool>)
    ensures r.Failure? <==> !Is3x3(lattice)
    ensures r.Failure? ==> r.error == NotThreeByThree
  {
    if !Is3x3(lattice) then Failure(NotThreeByThree)
    else Success(Abs(Dot(Column(lattice, 0), Column(lattice, 1))) < tol)
  }

  /** The check answers true exactly when |sum over i of L[i][0] * L[i][1]| < tol. */
  lemma OrthogonalityIff(lattice: Matrix, tol: real)
    requires Is3x3(lattice)
    ensures CheckXyOrthogonality(lattice, tol) == Success(
      Abs(lattice[0][0] * lattice[0][1] + lattice[1][0] * lattice[1][1]
          + lattice[2][0] * lattice[2][1]) < tol)
  {
    var x, y := Column(lattice, 0), Column(lattice, 1);
    Dot3(x, y);
    assert x[0] == lattice[0][0] && x[1] == lattice[1][0] && x[2] == lattice[2][0];
    assert y[0] == lattice[0][1] && y[1] == lattice[1][1] && y[2] == lattice[2][1];
  }

  predicate IsDiagonal(m: Matrix)
    requires Is3x3(m)
  {
    forall i, j :: 0 <= i < 3 && 0 <= j < 3 && i != j ==> m[i][j] == 0.0
  }

  /** Any diagonal cell passes the check for every positive tolerance. */
  lemma DiagonalIsOrthogonal(lattice: Matrix, tol: real)
    requires Is3x3(lattice) && IsDiagonal(lattice) && tol > 0.0
    ensures CheckXyOrthogonality(lattice, tol) == Success(true)
  {
    OrthogonalityIff(lattice, tol);
    assert lattice[0][1] == 0.0 && lattice[1][0] == 0.0 && lattice[2][1] == 0.0;
  }

  /** The check as the rows-are-lattice-vectors convention needs it: the dot product of
      the first two ROWS, the in-plane lattice vectors. */
  function CheckXyRowOrthogonality(lattice: Matrix, tol: real := DefaultTolerance): (r: Result<bool>)
    ensures r.Failure? <==> !Is3x3(lattice)
    ensures r.Failure? ==> r.error == NotThreeByThree
  {
    if !Is3x3(lattice) then Failure(NotThreeByThree)
    else Success(Abs(Dot(lattice[0], lattice[1])) < tol)
  }

  /** A cell whose two in-plane lattice vectors are orthogonal stays so when it is
      stretched along any single axis, and the row check keeps answering true. */
  lemma UniaxialStrainKeepsRowsOrthogonal(cell: Matrix, s: real, axis: nat, tol: real)
    requires Is3x3(cell) && axis < 3 && tol > 0.0
    requires Dot(cell[0], cell[1]) == 0.0
    ensures Is3x3(Deformed1D(cell, s, axis))
    ensures Dot(Deformed1D(cell, s, axis)[0], Deformed1D(cell, s, axis)[1]) == 0.0
    ensures CheckXyRowOrthogonality(Deformed1D(cell, s, axis), tol) == Success(true)
  {
    var d := Deformed1D(cell, s, axis);
    Deformed1DRows(cell, s, axis);
    Dot3(cell[0], cell[1]);
    Dot3(d[0], d[1]);
  }

  /** The column check rejects a cell whose in-plane lattice vectors (1, 1, 0) and
      (2, -2, 0) are orthogonal, and accepts one whose vectors (1, 0, 1) and (0, 1, 1)
      are not. */
  lemma ColumnCheckDisagreesWithRows()
    ensures var l := [[1.0, 1.0, 0.0], [2.0, -2.0, 0.0], [0.0, 0.0, 1.0]];
      CheckXyOrthogonality(l, DefaultTolerance) == Success(false) &&
      CheckXyRowOrthogonality(l, DefaultTolerance) == Success(true)
    ensures var l := [[1.0, 0.0, 1.0], [0.0, 1.0, 1.0], [0.0, 0.0, 1.0]];
      CheckXyOrthogonality(l, DefaultTolerance) == Success(true) &&
      CheckXyRowOrthogonality(l, DefaultTolerance) == Success(false)
  {
  }

  // ---------------------------------------------------------------------------
  // generate_strain_list

  /** The least integer not below x. */
  function Ceil(x: real): (c: int)
    ensures x <= c as real < x + 1.0
  {
    -((-x).Floor)
  }

  /** Number of values np.arange(start, stop, step) yields. */
  function ArangeLength(start: real, stop: real, step: real): nat
    requires step != 0.0
  {
    var n := Ceil((stop - start) / step);
    if n < 0 then 0 else n
  }

  /** np.arange(start, stop, step) over exact reals: value i is start + i * step. */
  function Arange(start: real, stop: real, step: real): (r: seq<real>)
    requires step != 0.0
    ensures |r| == ArangeLength(start, stop, step)
  {
    seq(ArangeLength(start, stop, step), i requires 0 <= i => start + (i as real) * step)
  }

  /** With a positive step, np.arange yields exactly the terms of the progression
      start, start + step, ... that lie below stop: every value is below stop and the
      next term would not be. */
  lemma ArangeBelowStop(start: real, stop: real, step: real)
    requires step > 0.0
    ensures var r := Arange(start, stop, step);
      (forall i :: 0 <= i < |r| ==> r[i] < stop) &&
      start + (|r| as real) * step >= stop
  {
    var r := Arange(start, stop, step);
    var q := (stop - start) / step;
    assert q * step == stop - start;
    var n := |r|;
    assert (n as real) >= q;
    forall i | 0 <= i < n ensures r[i] < stop {
      var c := Ceil(q);
      assert c == n;
      assert (i as real) < q by {
        assert (i as real) <= (c as real) - 1.0;
      }
      assert (i as real) * step < q * step;
    }
    assert (n as real) * step >= q * step;
  }

  /** The outcome of generate_strain_list: whether the large-strain warning was printed
      (it is printed before any check) and the list or the error raised. */
  datatype StrainListCall = StrainListCall(warned: bool, list: Result<seq<real>>)

  /** generate_strain_list(absolute_value, step): np.arange(-M, M + step, step). */
  function GenerateStrainList(absoluteValue: real := DefaultAbsoluteValue, step: real := DefaultStep): (r: StrainListCall)
    ensures r.warned <==> absoluteValue > WarningThreshold
    ensures absoluteValue < 0.0 ==> r.list == Failure(NegativeAbsoluteValue)
    ensures absoluteValue >= 0.0 && step == 0.0 ==> r.list == Failure(ZeroStep)
    ensures r.list.Success? <==> absoluteValue >= 0.0 && step != 0.0
  {
    var warned := absoluteValue > WarningThreshold;
    if absoluteValue < 0.0 then StrainListCall(warned, Failure(NegativeAbsoluteValue))
    else if step == 0.0 then StrainListCall(warned, Failure(ZeroStep))
    else StrainListCall(warned, Success(Arange(-absoluteValue, absoluteValue + step, step)))
  }

  /** Division is the inverse of multiplication by a nonzero number. */
  lemma DivUnique(x: real, c: real, y: real)
    requires c != 0.0
    requires y * c == x
    ensures x / c == y
  {
  }

  /** (2M + step) / step is one more than 2M / step. */
  lemma StepRatio(m: real, step: real)
    requires step > 0.0
    ensures (m + step - -m) / step == (2.0 * m + step) / step == 2.0 * m / step + 1.0
  {
    var p := 2.0 * m / step;
    assert p * step == 2.0 * m;
    assert (p + 1.0) * step == p * step + step;
    DivUnique(2.0 * m + step, step, p + 1.0);
  }

  /** For M >= 0 and step > 0 the list has ceil((2M + step) / step) = ceil(2M / step) + 1
      values, value i is -M + i * step, it is strictly ascending, starts at -M, stays
      below M + step and reaches M. */
  lemma StrainListShape(m: real, step: real)
    requires m >= 0.0 && step > 0.0
    ensures GenerateStrainList(m, step).list.Success?
    ensures var v := GenerateStrainList(m, step).list.value;
      |v| == Ceil((2.0 * m + step) / step) == Ceil(2.0 * m / step) + 1 &&
      |v| >= 1 && v[0] == -m &&
      (forall i :: 0 <= i < |v| ==> v[i] == -m + (i as real) * step) &&
      (forall i, j :: 0 <= i < j < |v| ==> v[i] < v[j]) &&
      (forall i :: 0 <= i < |v| ==> v[i] < m + step) &&
      v[|v| - 1] >= m
  {
    var v := GenerateStrainList(m, step).list.value;
    assert v == Arange(-m, m + step, step);
    StepRatio(m, step);
    assert |v| >= 1 by {
      assert 2.0 * m / step >= 0.0;
    }
    ArangeBelowStop(-m, m + step, step);
    forall i, j | 0 <= i < j < |v| ensures v[i] < v[j] {
      assert (j as real) * step - (i as real) * step == ((j - i) as real) * step;
    }
    var last := |v| - 1;
    assert v[last] + step >= m + step by {
      assert -m + (|v| as real) * step >= m + step;
      assert (|v| as real) * step == (last as real) * step + step;
    }
  }

  /** When 2M is a whole number k of steps the list is symmetric about zero: it has
      k + 1 values and value k - i is the negation of value i. */
  lemma StrainListSymmetric(m: real, step: real, k: nat)
    requires m >= 0.0 && step > 0.0 && 2.0 * m == (k as real) * step
    ensures var v := GenerateStrainList(m, step).list.value;
      |v| == k + 1 && forall i :: 0 <= i <= k ==> v[k - i] == -v[i]
  {
    StrainListShape(m, step);
    var v := GenerateStrainList(m, step).list.value;
    assert 2.0 * m / step == k as real;
    forall i | 0 <= i <= k ensures v[k - i] == -v[i] {
      assert ((k - i) as real) * step == (k as real) * step - (i as real) * step;
    }
  }

  /** generate_strain_list(0.08, 0.01) gives the 17 values -0.08, -0.07, ..., 0.08. */
  lemma EightPercentSeries()
    ensures GenerateStrainList(0.08, 0.01) == StrainListCall(false, Success(
      [-0.08, -0.07, -0.06, -0.05, -0.04, -0.03, -0.02, -0.01, 0.0,
       0.01, 0.02, 0.03, 0.04, 0.05, 0.06, 0.07, 0.08]))
  {
    StrainListShape(0.08, 0.01);
    StrainListSymmetric(0.08, 0.01, 16);
    var v := GenerateStrainList(0.08, 0.01).list.value;
    var w := [-0.08, -0.07, -0.06, -0.05, -0.04, -0.03, -0.02, -0.01, 0.0,
              0.01, 0.02, 0.03, 0.04, 0.05, 0.06, 0.07, 0.08];
    assert |v| == |w| == 17;
    forall i | 0 <= i < 17 ensures v[i] == w[i] {
      assert v[i] == -0.08 + (i as real) * 0.01;
      assert w[i] == -0.08 + (i as real) * 0.01;
    }
    assert v == w;
  }

  /** With its default arguments (M = 0.1, step = 0.01) generate_strain_list gives no
      warning and the 21 values -0.1, -0.09, ..., 0.1, symmetric about zero. */
  lemma DefaultSeries()
    ensures !GenerateStrainList().warned
    ensures var v := GenerateStrainList().list.value;
      |v| == 21 && v[0] == -0.1 && v[10] == 0.0 && v[20] == 0.1 &&
      (forall i :: 0 <= i < 21 ==> v[i] == -0.1 + (i as real) * 0.01) &&
      forall i :: 0 <= i <= 20 ==> v[20 - i] == -v[i]
  {
  }

  /** With its default tolerance the check accepts a diagonal cell such as the
      rectangular goldene cell with sides 2.758, 4.713 and 3.45. */
  lemma DefaultToleranceAcceptsGoldeneCell()
    ensures CheckXyOrthogonality([[2.758, 0.0, 0.0], [0.0, 4.713, 0.0], [0.0, 0.0, 3.45]]) == Success(true)
  {
  }

  // ---------------------------------------------------------------------------
  // func

  /** func(x, a, b): the quadratic energy model a * x^2 + b. */
  function Func(x: real, a: real, b: real): real {
    a * (x * x) + b
  }

  /** The model equals b at zero strain, is even in the strain, and has its minimum
      (a >= 0) or maximum (a <= 0) there. */
  lemma QuadraticModel(x: real, a: real, b: real)
    ensures Func(0.0, a, b) == b
    ensures Func(-x, a, b) == Func(x, a, b)
    ensures a >= 0.0 ==> Func(x, a, b) >= b
    ensures a <= 0.0 ==> Func(x, a, b) <= b
  {
  }

  /** Over a series that is symmetric about zero, the quadratic model gives the same
      energy at the mirrored strains -v and v. */
  lemma EnergiesOverSymmetricSeries(m: real, step: real, k: nat, a: real, b: real)
    requires m >= 0.0 && step > 0.0 && 2.0 * m == (k as real) * step
    ensures var v := GenerateStrainList(m, step).list.value;
      |v| == k + 1 && forall i :: 0 <= i <= k ==> Func(v[k - i], a, b) == Func(v[i], a, b)
  {
    StrainListSymmetric(m, step, k);
    var v := GenerateStrainList(m, step).list.value;
    forall i | 0 <= i <= k ensures Func(v[k - i], a, b) == Func(v[i], a, b) {
      QuadraticModel(v[i], a, b);
    }
  }

  // ---------------------------------------------------------------------------
  // apply_1d_strain and apply_xy_strain

  /** The strain tensor of apply_1d_strain: s at [axis, axis], zero elsewhere. */
  function StrainTensor1D(axis: nat, s: real): (e: Matrix)
    requires axis < 3
    ensures Is3x3(e)
  {
    seq(3, i requires 0 <= i < 3 => seq(3, j requires 0 <= j < 3 =>
      if i == axis && j == axis then s else 0.0))
  }

  /** The strain tensor of apply_xy_strain: s on [0, 0] and [1, 1], s / 2 on [0, 1]
      and [1, 0]. */
  function StrainTensorXy(s: real): (e: Matrix)
    ensures Is3x3(e)
  {
    [[s, s / 2.0, 0.0], [s / 2.0, s, 0.0], [0.0, 0.0, 0.0]]
  }

  /** The deformation matrix I + E. */
  function Deformation(e: Matrix): (d: Matrix)
    requires Is3x3(e)
    ensures Is3x3(d)
  {
    Add(Identity3, e)
  }

  /** np.dot(I + E, cell) for the single-axis tensor. */
  function Deformed1D(cell: Matrix, s: real, axis: nat): (c: Matrix)
    requires Rectangular(cell) && |cell| == 3 && axis < 3
  {
    MatMul(Deformation(StrainTensor1D(axis, s)), cell)
  }

  /** np.dot(I + E, cell) for the xy tensor. */
  function DeformedXy(cell: Matrix, s: real): (c: Matrix)
    requires Is3x3(cell)
  {
    MatMul(Deformation(StrainTensorXy(s)), cell)
  }

  /** Entries of the single-axis deformation matrix: 1 + s at [axis, axis], 1 elsewhere
      on the diagonal, 0 off it. */
  lemma Deformation1DEntries(axis: nat, s: real)
    requires axis < 3
    ensures var d := Deformation(StrainTensor1D(axis, s));
      forall i, j :: 0 <= i < 3 && 0 <= j < 3 ==>
        d[i][j] == if i != j then 0.0 else if i == axis then 1.0 + s else 1.0
  {
  }

  /** Row i of the single-axis deformed cell. */
  lemma Deformed1DRow(cell: Matrix, s: real, axis: nat, i: nat)
    requires Rectangular(cell) && |cell| == 3 && axis < 3 && i < 3
    ensures Deformed1D(cell, s, axis)[i] == if i == axis then Scale(1.0 + s, cell[i]) else cell[i]
  {
    var d := Deformation(StrainTensor1D(axis, s));
    Deformation1DEntries(axis, s);
    MatMul3Row(d, cell, i);
    var w := Width(cell);
    var rhs := Plus(Plus(Scale(d[i][0], cell[0]), Scale(d[i][1], cell[1])), Scale(d[i][2], cell[2]));
    var want := if i == axis then Scale(1.0 + s, cell[i]) else cell[i];
    assert |rhs| == |want| == w;
    forall j | 0 <= j < w ensures rhs[j] == want[j] {
      assert rhs[j] == d[i][0] * cell[0][j] + d[i][1] * cell[1][j] + d[i][2] * cell[2][j];
    }
  }

  /** Single-axis strain scales lattice vector `axis` by 1 + s and leaves the other
      two as they were. */
  lemma Deformed1DRows(cell: Matrix, s: real, axis: nat)
    requires Rectangular(cell) && |cell| == 3 && axis < 3
    ensures var c := Deformed1D(cell, s, axis);
      |c| == 3 && Rectangular(c) && Width(c) == Width(cell) &&
      forall i :: 0 <= i < 3 ==>
        c[i] == if i == axis then Scale(1.0 + s, cell[i]) else cell[i]
  {
    Deformed1DRow(cell, s, axis, 0);
    Deformed1DRow(cell, s, axis, 1);
    Deformed1DRow(cell, s, axis, 2);
  }

  /** xy strain maps the lattice vectors a, b, c to (1 + s) a + (s / 2) b,
      (s / 2) a + (1 + s) b and c. */
  lemma DeformedXyRows(cell: Matrix, s: real)
    requires Is3x3(cell)
    ensures var c := DeformedXy(cell, s);
      Is3x3(c) &&
      c[0] == Plus(Scale(1.0 + s, cell[0]), Scale(s / 2.0, cell[1])) &&
      c[1] == Plus(Scale(s / 2.0, cell[0]), Scale(1.0 + s, cell[1])) &&
      c[2] == cell[2]
  {
    var d := Deformation(StrainTensorXy(s));
    var c := DeformedXy(cell, s);
    MatMul3Row(d, cell, 0);
    MatMul3Row(d, cell, 1);
    MatMul3Row(d, cell, 2);
    assert c[0] == Plus(Scale(1.0 + s, cell[0]), Scale(s / 2.0, cell[1]));
    assert c[1] == Plus(Scale(s / 2.0, cell[0]), Scale(1.0 + s, cell[1]));
    assert c[2] == cell[2];
  }

  /** Both deformation matrices are symmetric. */
  lemma DeformationsSymmetric(s: real, axis: nat)
    requires axis < 3
    ensures Symmetric3(Deformation(StrainTensorXy(s)))
    ensures Symmetric3(Deformation(StrainTensor1D(axis, s)))
  {
  }

  /** At zero strain both deformers give back the input cell. */
  lemma {:induction false} ZeroStrainIsIdentity(cell: Matrix, axis: nat)
    requires Rectangular(cell) && |cell| == 3 && axis < 3
    ensures Deformed1D(cell, 0.0, axis) == cell
    ensures Is3x3(cell) ==> DeformedXy(cell, 0.0) == cell
  {
    Deformed1DRows(cell, 0.0, axis);
    forall i | 0 <= i < 3 ensures Deformed1D(cell, 0.0, axis)[i] == cell[i] {
      assert Scale(1.0, cell[i]) == cell[i];
    }
    if Is3x3(cell) {
      DeformedXyRows(cell, 0.0);
      assert Plus(Scale(1.0, cell[0]), Scale(0.0, cell[1])) == cell[0];
      assert Plus(Scale(0.0, cell[0]), Scale(1.0, cell[1])) == cell[1];
    }
  }

  /** The contents of a 3x3 array as a matrix value. */
  function Contents3(a: array2<real>): (m: Matrix)
    requires a.Length0 == 3 && a.Length1 == 3
    reads a
    ensures Is3x3(m)
  {
    [[a[0, 0], a[0, 1], a[0, 2]], [a[1, 0], a[1, 1], a[1, 2]], [a[2, 0], a[2, 1], a[2, 2]]]
  }

  /** A 3x3 array holding s at [axis, axis] and zero elsewhere holds StrainTensor1D. */
  lemma Filled1D(a: array2<real>, axis: nat, s: real)
    requires a.Length0 == 3 && a.Length1 == 3 && axis < 3
    requires forall i, j :: 0 <= i < 3 && 0 <= j < 3 ==>
      a[i, j] == if i == axis && j == axis then s else 0.0
    ensures Contents3(a) == StrainTensor1D(axis, s)
  {
    Equal3x3(Contents3(a), StrainTensor1D(axis, s));
  }

  /** apply_1d_strain(cell, strain_value, axis): rejects an axis outside {0, 1, 2}, fills
      a fresh zero array with strain_value at [axis, axis] and returns np.dot(I + E, cell);
      np.dot fails when the cell does not have three rows. */
  method Apply1DStrain(cell: Matrix, strainValue: real, axis: int := 0) returns (r: Result<Matrix>)
    requires Rectangular(cell)
    ensures !(0 <= axis < 3) ==> r == Failure(InvalidAxis)
    ensures 0 <= axis < 3 && |cell| != 3 ==> r == Failure(ShapeMismatch)
    ensures 0 <= axis < 3 && |cell| == 3 ==> r == Success(Deformed1D(cell, strainValue, axis))
    ensures r.Success? ==> (|r.value| == 3 && Width(r.value) == Width(cell) &&
      forall i :: 0 <= i < 3 ==>
        r.value[i] == if i == axis then Scale(1.0 + strainValue, cell[i]) else cell[i])
    ensures r.Success? && strainValue == 0.0 ==> r.value == cell
  {
    if axis !in {0, 1, 2} {
      return Failure(InvalidAxis);
    }
    var strain := new real[3, 3]((i, j) => 0.0);
    strain[axis, axis] := strainValue;
    Filled1D(strain, axis, strainValue);
    var deformation := Add(Identity3, Contents3(strain));
    if |cell| != 3 {
      return Failure(ShapeMismatch);
    }
    r := Success(MatMul(deformation, cell));
    Deformed1DRows(cell, strainValue, axis);
    ZeroStrainIsIdentity(cell, axis);
  }

  /** apply_xy_strain(cell, strain_value): rejects a cell that is not 3x3, fills a fresh
      zero array with the xy tensor and returns np.dot(I + E, cell). */
  method ApplyXyStrain(cell: Matrix, strainValue: real) returns (r: Result<Matrix>)
    ensures !Is3x3(cell) ==> r == Failure(NotThreeByThree)
    ensures Is3x3(cell) ==> r == Success(DeformedXy(cell, strainValue))
    ensures r.Success? ==> (Is3x3(r.value) &&
      r.value[0] == Plus(Scale(1.0 + strainValue, cell[0]), Scale(strainValue / 2.0, cell[1])) &&
      r.value[1] == Plus(Scale(strainValue / 2.0, cell[0]), Scale(1.0 + strainValue, cell[1])) &&
      r.value[2] == cell[2])
    ensures r.Success? && strainValue == 0.0 ==> r.value == cell
  {
    if !Is3x3(cell) {
      return Failure(NotThreeByThree);
    }
    var strain := new real[3, 3]((i, j) => 0.0);
    strain[0, 0] := strainValue;
    strain[1, 1] := strainValue;
    strain[0, 1] := strainValue / 2.0;
    strain[1, 0] := strainValue / 2.0;
    var deformation := Add(Identity3, Contents3(strain));
    Equal3x3(Contents3(strain), StrainTensorXy(strainValue));
    r := Success(MatMul(deformation, cell));
    DeformedXyRows(cell, strainValue);
    assert Rectangular(cell);
    ZeroStrainIsIdentity(cell, 0);
  }
}
