/** The operators of the lateral beam-on-Winkler solver (lateral.py): dense
    matrices as rows, the finite-difference matrices D2, D3 = D1 D2 and
    D4 = D2 D2 of finite_diff_mats, and the row replacements of
    apply_boundary_conditions. */
module LateralOps {
  import opened Numerics

  type Matrix = seq<seq<real>>

  predicate Square(m: Matrix, n: nat) {
    |m| == n && forall i :: 0 <= i < n ==> |m[i]| == n
  }

  /** u @ v. */
  function Dot(u: seq<real>, v: seq<real>): real
    requires |u| == |v|
  {
    if u == [] then 0.0 else u[0] * v[0] + Dot(u[1..], v[1..])
  }

  predicate ZeroRow(row: seq<real>) {
    forall j :: 0 <= j < |row| ==> row[j] == 0.0
  }

  /** A zero row has a zero product with every vector. */
  lemma {:induction false} DotZero(u: seq<real>, v: seq<real>)
    requires |u| == |v| && ZeroRow(u)
    ensures Dot(u, v) == 0.0
  {
    if u != [] {
      DotZero(u[1..], v[1..]);
    }
  }

  function Column(m: Matrix, n: nat, j: nat): (c: seq<real>)
    requires Square(m, n) && j < n
    ensures |c| == n
  {
    seq(n, i requires 0 <= i < n => m[i][j])
  }

  /** m @ v. */
  function MatVec(m: Matrix, n: nat, v: seq<real>): (r: seq<real>)
    requires Square(m, n) && |v| == n
    ensures |r| == n
  {
    seq(n, i requires 0 <= i < n => Dot(m[i], v))
  }

  /** a @ b. */
  function MatMul(a: Matrix, b: Matrix, n: nat): (c: Matrix)
    requires Square(a, n) && Square(b, n)
    ensures Square(c, n)
  {
    seq(n, i requires 0 <= i < n => seq(n, j requires 0 <= j < n => Dot(a[i], Column(b, n, j))))
  }

  /** A zero row of a gives a zero row of a @ b. */
  lemma MatMulZeroRow(a: Matrix, b: Matrix, n: nat, i: nat)
    requires Square(a, n) && Square(b, n) && i < n && ZeroRow(a[i])
    ensures ZeroRow(MatMul(a, b, n)[i])
  {
    forall j | 0 <= j < n
      ensures MatMul(a, b, n)[i][j] == 0.0
    {
      DotZero(a[i], Column(b, n, j));
    }
  }

  /** A zero row of m gives a zero entry of m @ v. */
  lemma MatVecZeroRow(m: Matrix, n: nat, v: seq<real>, i: nat)
    requires Square(m, n) && |v| == n && i < n && ZeroRow(m[i])
    ensures MatVec(m, n, v)[i] == 0.0
  {
    DotZero(m[i], v);
  }

  /** c * row. */
  function ScaleRow(c: real, row: seq<real>): (r: seq<real>)
    ensures |r| == |row|
    ensures forall j :: 0 <= j < |row| ==> r[j] == c * row[j]
  {
    seq(|row|, j requires 0 <= j < |row| => c * row[j])
  }

  lemma ScaleZeroRow(c: real, row: seq<real>)
    requires ZeroRow(row)
    ensures ZeroRow(ScaleRow(c, row))
  {
  }

  /** The unit row e_k of length n. */
  function Unit(n: nat, k: nat): (r: seq<real>)
    ensures |r| == n
    ensures forall j :: 0 <= j < n ==> r[j] == (if j == k then 1.0 else 0.0)
  {
    seq(n, j => if j == k then 1.0 else 0.0)
  }

  // ------------------------------------------------------ finite differences

  /** The unscaled stencil of D2: 1, -2, 1 on interior rows, nothing on the
      first and last rows. */
  function D2Coef(n: nat, i: nat, j: nat): real {
    if 1 <= i < n - 1 then
      if j + 1 == i || j == i + 1 then 1.0 else if j == i then -2.0 else 0.0
    else 0.0
  }

  /** The unscaled stencil of D1: -0.5, 0, 0.5 on interior rows only. */
  function D1Coef(n: nat, i: nat, j: nat): real {
    if 1 <= i < n - 1 then
      if j == i + 1 then 0.5 else if j + 1 == i then -0.5 else 0.0
    else 0.0
  }

  /** D2 = stencil / dz^2, the square written as two divisions by dz. */
  function D2Mat(n: nat, dz: real): (m: Matrix)
    requires dz != 0.0
    ensures Square(m, n)
  {
    seq(n, i requires 0 <= i < n => seq(n, j requires 0 <= j < n => D2Coef(n, i, j) / dz / dz))
  }

  /** D1 = stencil / dz. */
  function D1Mat(n: nat, dz: real): (m: Matrix)
    requires dz != 0.0
    ensures Square(m, n)
  {
    seq(n, i requires 0 <= i < n => seq(n, j requires 0 <= j < n => D1Coef(n, i, j) / dz))
  }

  function D3Mat(n: nat, dz: real): (m: Matrix)
    requires dz != 0.0
    ensures Square(m, n)
  {
    MatMul(D1Mat(n, dz), D2Mat(n, dz), n)
  }

  function D4Mat(n: nat, dz: real): (m: Matrix)
    requires dz != 0.0
    ensures Square(m, n)
  {
    MatMul(D2Mat(n, dz), D2Mat(n, dz), n)
  }

  /** Interior rows of D2 hold 1, -2, 1 over dz^2 at columns i-1, i, i+1
      and zero elsewhere; interior rows of D1 hold -0.5 and 0.5 over dz at
      columns i-1 and i+1. */
  lemma InteriorStencils(n: nat, dz: real, i: nat)
    requires dz != 0.0 && 1 <= i < n - 1
    ensures D2Mat(n, dz)[i][i - 1] == 1.0 / dz / dz && D2Mat(n, dz)[i][i + 1] == 1.0 / dz / dz
    ensures D2Mat(n, dz)[i][i] == -2.0 / dz / dz
    ensures forall j :: 0 <= j < n && j + 1 != i && j != i && j != i + 1 ==> D2Mat(n, dz)[i][j] == 0.0
    ensures D1Mat(n, dz)[i][i - 1] == -0.5 / dz && D1Mat(n, dz)[i][i + 1] == 0.5 / dz
    ensures forall j :: 0 <= j < n && j + 1 != i && j != i + 1 ==> D1Mat(n, dz)[i][j] == 0.0
  {
  }

  /** The first and last rows of D2 and D1 are never filled, so they are
      zero, and so are the first and last rows of D3 = D1 D2 and D4 = D2 D2. */
  lemma BoundaryRowsZero(n: nat, dz: real)
    requires dz != 0.0 && n >= 1
    ensures ZeroRow(D2Mat(n, dz)[0]) && ZeroRow(D2Mat(n, dz)[n - 1])
    ensures ZeroRow(D1Mat(n, dz)[0]) && ZeroRow(D1Mat(n, dz)[n - 1])
    ensures ZeroRow(D3Mat(n, dz)[0]) && ZeroRow(D3Mat(n, dz)[n - 1])
    ensures ZeroRow(D4Mat(n, dz)[0]) && ZeroRow(D4Mat(n, dz)[n - 1])
  {
    forall j | 0 <= j < n
      ensures D2Mat(n, dz)[0][j] == 0.0 && D2Mat(n, dz)[n - 1][j] == 0.0
      ensures D1Mat(n, dz)[0][j] == 0.0 && D1Mat(n, dz)[n - 1][j] == 0.0
    {
      assert D2Coef(n, 0, j) == 0.0 && D2Coef(n, n - 1, j) == 0.0;
      assert D1Coef(n, 0, j) == 0.0 && D1Coef(n, n - 1, j) == 0.0;
    }
    MatMulZeroRow(D1Mat(n, dz), D2Mat(n, dz), n, 0);
    MatMulZeroRow(D1Mat(n, dz), D2Mat(n, dz), n, n - 1);
    MatMulZeroRow(D2Mat(n, dz), D2Mat(n, dz), n, 0);
    MatMulZeroRow(D2Mat(n, dz), D2Mat(n, dz), n, n - 1);
  }

  /** The rows of an n-by-n array. */
  function Rows(a: array2<real>, n: nat): (m: Matrix)
    requires a.Length0 == n && a.Length1 == n
    reads a
    ensures Square(m, n)
  {
    seq(n, i requires 0 <= i < n reads a => seq(n, j requires 0 <= j < n reads a => a[i, j]))
  }

  /** The unscaled stencil rows filled so far: rows below `upto` are final. */
  predicate StencilDone(a: array2<real>, n: nat, upto: nat, second: bool)
    requires a.Length0 == n && a.Length1 == n
    reads a
  {
    forall r, c :: 0 <= r < n && 0 <= c < n ==>
      a[r, c] == (if r < upto then (if second then D2Coef(n, r, c) else D1Coef(n, r, c)) else 0.0)
  }

  /** One pass of a stencil loop: row i of D2 (second) or of D1. */
  method FillStencilRow(a: array2<real>, n: nat, i: nat, second: bool)
    requires a.Length0 == n && a.Length1 == n && 1 <= i < n - 1
    requires StencilDone(a, n, i, second)
    modifies a
    ensures StencilDone(a, n, i + 1, second)
  {
    if second {
      a[i, i - 1] := 1.0;
      a[i, i] := -2.0;
      a[i, i + 1] := 1.0;
    } else {
      a[i, i + 1] := 0.5;
      a[i, i - 1] := -0.5;
    }
    forall r, c | 0 <= r < n && 0 <= c < n
      ensures a[r, c] == (if r < i + 1 then (if second then D2Coef(n, r, c) else D1Coef(n, r, c)) else 0.0)
    {
      if r != i || (c + 1 != i && c != i && c != i + 1) {
        assert a[r, c] == old(a[r, c]);
      }
    }
  }

  /** The stencil loop `for i in range(1, n - 1)`. */
  method FillStencil(a: array2<real>, n: nat, second: bool)
    requires a.Length0 == n && a.Length1 == n && StencilDone(a, n, 0, second)
    modifies a
    ensures forall r, c :: 0 <= r < n && 0 <= c < n ==>
              a[r, c] == (if second then D2Coef(n, r, c) else D1Coef(n, r, c))
  {
    if n >= 2 {
      assert StencilDone(a, n, 1, second);
      for i := 1 to n - 1
        invariant StencilDone(a, n, i, second)
      {
        FillStencilRow(a, n, i, second);
      }
      assert StencilDone(a, n, n, second);
    }
  }

  /** An n-by-n array of stencils, divided in place by `by`. */
  method DivideInPlace(a: array2<real>, n: nat, divisor: real)
    requires a.Length0 == n && a.Length1 == n && divisor != 0.0
    modifies a
    ensures forall r, c :: 0 <= r < n && 0 <= c < n ==> a[r, c] == old(a[r, c]) / divisor
  {
    forall r, c | 0 <= r < n && 0 <= c < n {
      a[r, c] := a[r, c] / divisor;
    }
  }

  /** finite_diff_mats: D2 and D1 filled by their loops and scaled, then
      D3 = D1 @ D2 and D4 = D2 @ D2. */
  method FiniteDiffMats(n: nat, dz: real) returns (d2: Matrix, d3: Matrix, d4: Matrix)
    requires dz != 0.0
    ensures d2 == D2Mat(n, dz) && d3 == D3Mat(n, dz) && d4 == D4Mat(n, dz)
  {
    var a2 := new real[n, n]((i, j) => 0.0);
    FillStencil(a2, n, true);
    DivideInPlace(a2, n, dz);
    DivideInPlace(a2, n, dz);
    var a1 := new real[n, n]((i, j) => 0.0);
    FillStencil(a1, n, false);
    DivideInPlace(a1, n, dz);
    d2 := Rows(a2, n);
    var d1 := Rows(a1, n);
    forall i | 0 <= i < n
      ensures d2[i] == D2Mat(n, dz)[i] && d1[i] == D1Mat(n, dz)[i]
    {
    }
    assert d1 == D1Mat(n, dz);
    d3 := MatMul(d1, d2, n);
    d4 := MatMul(d2, d2, n);
  }

  // ---------------------------------------------------- boundary conditions

  datatype BCType = FreeHead | FixedHead

  /** Row 1 of a fixed head: the forward difference [-1/dz, 1/dz, 0, ...]. */
  function SlopeRow(n: nat, dz: real): (r: seq<real>)
    requires dz != 0.0
    ensures |r| == n
  {
    seq(n, j => if j == 0 then -1.0 / dz else if j == 1 then 1.0 / dz else 0.0)
  }

  /** The head rows of a fixed head: row 0 becomes e_0 and, when n >= 2,
      row 1 the head slope; a free head leaves A alone here. */
  function HeadRows(a: Matrix, n: nat, bc: BCType, dz: real): (b: Matrix)
    requires Square(a, n) && dz != 0.0
    requires bc == FixedHead ==> n >= 1
    ensures Square(b, n)
  {
    if bc == FixedHead then
      (if n >= 2 then a[0 := Unit(n, 0)][1 := SlopeRow(n, dz)] else a[0 := Unit(n, 0)])
    else a
  }

  /** The free tip: EI D2[n-1] in row n-1 (n >= 3), then EI D3[n-2] in row
      n-2 (n >= 4). */
  function TipRows(a: Matrix, d2: Matrix, d3: Matrix, n: nat, ei: real): (b: Matrix)
    requires Square(a, n) && Square(d2, n) && Square(d3, n)
    ensures Square(b, n)
  {
    var tip := if n >= 3 then a[n - 1 := ScaleRow(ei, d2[n - 1])] else a;
    if n >= 4 then tip[n - 2 := ScaleRow(ei, d3[n - 2])] else tip
  }

  /** The system matrix after apply_boundary_conditions. */
  function BoundaryRows(a: Matrix, d2: Matrix, d3: Matrix, n: nat, bc: BCType, ei: real, dz: real): (b: Matrix)
    requires Square(a, n) && Square(d2, n) && Square(d3, n) && dz != 0.0
    requires bc == FixedHead ==> n >= 1
    ensures Square(b, n)
  {
    TipRows(HeadRows(a, n, bc, dz), d2, d3, n, ei)
  }

  /** (hi - lo) / dz. */
  function Slope(lo: real, hi: real, dz: real): real
    requires dz != 0.0
  {
    (hi - lo) / dz
  }

  /** -EI (row @ y): the rhs of a row replaced by EI row. */
  function Load(ei: real, row: seq<real>, y: seq<real>): real
    requires |row| == |y|
  {
    -(ei * Dot(row, y))
  }

  /** rhs_bc at the head: -y[0] and -(y[1] - y[0]) / dz for a fixed head. */
  function HeadRhs(y: seq<real>, bc: BCType, dz: real): (r: seq<real>)
    requires dz != 0.0
    requires bc == FixedHead ==> |y| >= 1
    ensures |r| == |y|
  {
    var zero := seq(|y|, i => 0.0);
    if bc == FixedHead then
      (if |y| >= 2 then zero[0 := -y[0]][1 := -Slope(y[0], y[1], dz)] else zero[0 := -y[0]])
    else zero
  }

  /** rhs_bc at the tip: -EI (D2 y)[n-1] and -EI (D3 y)[n-2]. */
  function TipRhs(h: seq<real>, d2: Matrix, d3: Matrix, y: seq<real>, ei: real): (r: seq<real>)
    requires Square(d2, |y|) && Square(d3, |y|) && |h| == |y|
    ensures |r| == |y|
  {
    var n := |y|;
    var tip := if n >= 3 then h[n - 1 := Load(ei, d2[n - 1], y)] else h;
    if n >= 4 then tip[n - 2 := Load(ei, d3[n - 2], y)] else tip
  }

  /** rhs_bc: non-zero only in the rows the boundary conditions replace. */
  function BoundaryRhs(d2: Matrix, d3: Matrix, y: seq<real>, bc: BCType, ei: real, dz: real): (r: seq<real>)
    requires Square(d2, |y|) && Square(d3, |y|) && dz != 0.0
    requires bc == FixedHead ==> |y| >= 1
    ensures |r| == |y|
  {
    TipRhs(HeadRhs(y, bc, dz), d2, d3, y, ei)
  }

  /** The rows apply_boundary_conditions replaces. */
  predicate Replaced(n: nat, bc: BCType, i: nat) {
    (bc == FixedHead && i <= 1 && i < n) || (n >= 3 && i == n - 1) || (n >= 4 && i == n - 2)
  }

  /** Only the replaced rows change, and only their rhs_bc entries can be
      non-zero. */
  lemma BoundaryFrame(a: Matrix, d2: Matrix, d3: Matrix, y: seq<real>, bc: BCType, ei: real, dz: real)
    requires Square(a, |y|) && Square(d2, |y|) && Square(d3, |y|) && dz != 0.0
    requires bc == FixedHead ==> |y| >= 1
    ensures forall i :: 0 <= i < |y| && !Replaced(|y|, bc, i) ==>
              BoundaryRows(a, d2, d3, |y|, bc, ei, dz)[i] == a[i] && BoundaryRhs(d2, d3, y, bc, ei, dz)[i] == 0.0
  {
  }

  /** A fixed head pins y(0): row 0 is e_0 with rhs -y[0]; row 1 is the
      head slope with rhs -(y[1] - y[0]) / dz. */
  lemma FixedHeadRows(a: Matrix, d2: Matrix, d3: Matrix, y: seq<real>, ei: real, dz: real)
    requires Square(a, |y|) && Square(d2, |y|) && Square(d3, |y|) && dz != 0.0 && |y| >= 1
    ensures BoundaryRows(a, d2, d3, |y|, FixedHead, ei, dz)[0] == Unit(|y|, 0)
    ensures BoundaryRhs(d2, d3, y, FixedHead, ei, dz)[0] == -y[0]
    ensures |y| >= 2 ==> BoundaryRows(a, d2, d3, |y|, FixedHead, ei, dz)[1] == SlopeRow(|y|, dz)
    ensures |y| >= 2 ==> BoundaryRhs(d2, d3, y, FixedHead, ei, dz)[1] == -Slope(y[0], y[1], dz)
  {
  }

  /** The free tip: row n-1 is EI D2[n-1] (n >= 3) and row n-2 is EI D3[n-2]
      (n >= 4), with rhs -EI (D2 y)[n-1] and -EI (D3 y)[n-2]. */
  lemma TipBoundary(a: Matrix, d2: Matrix, d3: Matrix, y: seq<real>, bc: BCType, ei: real, dz: real)
    requires Square(a, |y|) && Square(d2, |y|) && Square(d3, |y|) && dz != 0.0
    requires bc == FixedHead ==> |y| >= 1
    ensures |y| >= 3 ==> BoundaryRows(a, d2, d3, |y|, bc, ei, dz)[|y| - 1] == ScaleRow(ei, d2[|y| - 1])
    ensures |y| >= 3 ==> BoundaryRhs(d2, d3, y, bc, ei, dz)[|y| - 1] == Load(ei, d2[|y| - 1], y)
    ensures |y| >= 4 ==> BoundaryRows(a, d2, d3, |y|, bc, ei, dz)[|y| - 2] == ScaleRow(ei, d3[|y| - 2])
    ensures |y| >= 4 ==> BoundaryRhs(d2, d3, y, bc, ei, dz)[|y| - 2] == Load(ei, d3[|y| - 2], y)
  {
    var n := |y|;
    var h := HeadRows(a, n, bc, dz);
    var hr := HeadRhs(y, bc, dz);
    assert BoundaryRows(a, d2, d3, n, bc, ei, dz) == TipRows(h, d2, d3, n, ei);
    assert BoundaryRhs(d2, d3, y, bc, ei, dz) == TipRhs(hr, d2, d3, y, ei);
  }

  /** With the operators of finite_diff_mats, the tip-moment row n-1 is a
      zero row and its rhs_bc entry is zero, so y''(L) = 0 is never imposed. */
  lemma TipMomentRowVanishes(a: Matrix, y: seq<real>, bc: BCType, ei: real, dz: real)
    requires Square(a, |y|) && dz != 0.0 && |y| >= 3
    ensures ZeroRow(BoundaryRows(a, D2Mat(|y|, dz), D3Mat(|y|, dz), |y|, bc, ei, dz)[|y| - 1])
    ensures BoundaryRhs(D2Mat(|y|, dz), D3Mat(|y|, dz), y, bc, ei, dz)[|y| - 1] == 0.0
  {
    var n := |y|;
    BoundaryRowsZero(n, dz);
    ScaleZeroRow(ei, D2Mat(n, dz)[n - 1]);
    DotZero(D2Mat(n, dz)[n - 1], y);
  }

  /** apply_boundary_conditions: overwrites rows of A in place and returns
      rhs_bc. */
  method ApplyBoundaryConditions(a: array2<real>, d2: Matrix, d3: Matrix, y: seq<real>, bc: BCType, ei: real, dz: real)
      returns (rhs: seq<real>)
    requires a.Length0 == |y| && a.Length1 == |y| && Square(d2, |y|) && Square(d3, |y|) && dz != 0.0
    requires bc == FixedHead ==> |y| >= 1
    modifies a
    ensures Rows(a, |y|) == BoundaryRows(old(Rows(a, |y|)), d2, d3, |y|, bc, ei, dz)
    ensures rhs == BoundaryRhs(d2, d3, y, bc, ei, dz)
  {
    var n := |y|;
    ghost var a0 := Rows(a, n);
    rhs := seq(n, i => 0.0);
    if bc == FixedHead {
      SetRow(a, n, 0, Unit(n, 0));
      rhs := rhs[0 := -y[0]];
      if n >= 2 {
        SetRow(a, n, 1, SlopeRow(n, dz));
        rhs := rhs[1 := -Slope(y[0], y[1], dz)];
      }
    }
    assert Rows(a, n) == HeadRows(a0, n, bc, dz);
    assert rhs == HeadRhs(y, bc, dz);
    ghost var a1 := Rows(a, n);
    ghost var h := rhs;
    var i := n - 1;
    if n >= 3 {
      SetRow(a, n, i, ScaleRow(ei, d2[i]));
      rhs := rhs[i := Load(ei, d2[i], y)];
    }
    assert rhs == (if n >= 3 then h[n - 1 := Load(ei, d2[n - 1], y)] else h);
    if n >= 4 {
      SetRow(a, n, i - 1, ScaleRow(ei, d3[i - 1]));
      rhs := rhs[i - 1 := Load(ei, d3[i - 1], y)];
    }
    assert Rows(a, n) == TipRows(a1, d2, d3, n, ei);
    assert rhs == TipRhs(h, d2, d3, y, ei);
  }

  /** A[i, :] = row. */
  method SetRow(a: array2<real>, n: nat, i: nat, row: seq<real>)
    requires a.Length0 == n && a.Length1 == n && i < n && |row| == n
    modifies a
    ensures Rows(a, n) == old(Rows(a, n))[i := row]
  {
    forall c | 0 <= c < n {
      a[i, c] := row[c];
    }
    assert forall r :: 0 <= r < n ==> Rows(a, n)[r] == old(Rows(a, n))[i := row][r];
  }
}
