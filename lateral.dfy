/** lateral_analysis (lateral.py): a pile as a beam on non-linear Winkler
    springs, EI y'''' = p(y, z), discretised on n nodes and solved by Newton
    iterations per head load step. The p-y spring and the dense linear solve
    are parameters. */
module Lateral {
  import opened Numerics
  import opened LateralOps

  datatype PileProps = PileProps(lengthM: real, eiNm2: real, dM: real, nNodes: int := 81)

  datatype LateralLoadCase = LateralLoadCase(hN: real, mNm: real := 0.0)

  datatype LateralConfig = LateralConfig(
    bc: BCType := FreeHead,
    maxIters: int := 40,
    tol: real := 0.000001,
    relax: real := 0.5)

  datatype LateralResults = LateralResults(
    zM: seq<real>,
    yM: seq<real>,
    thetaRad: seq<Float>,
    mNm: seq<Float>,
    vN: seq<Float>,
    pNPerM: seq<Float>,
    headDeflectionMm: real,
    headRotationMrad: Float)

  /** The dictionary lateral_analysis returns: the steps, the head curve of
      (H, y(0)) pairs and the meta entries. */
  datatype LateralOutput = LateralOutput(
    steps: seq<LateralResults>,
    headCurve: seq<(real, real)>,
    eiNm2: real,
    lengthM: real,
    nNodes: nat)

  /** py_spring(y, z) = (p, k): the soil reaction and its tangent, either of
      which may come back non-finite. */
  type Spring = (real, real) -> (Float, Float)

  /** Component k of the solution of A dy = r (np.linalg.solve, with the
      least-squares fallback when A is singular). */
  type Solver = (Matrix, seq<real>, nat) -> Float

  /** The grid and operators shared by all load steps. */
  datatype Beam = Beam(z: seq<real>, dz: real, ei: real, d2: Matrix, d3: Matrix, d4: Matrix)

  predicate Valid(b: Beam) {
    |b.z| >= 2 && b.dz != 0.0 &&
    b.d2 == D2Mat(|b.z|, b.dz) && b.d3 == D3Mat(|b.z|, b.dz) && b.d4 == D4Mat(|b.z|, b.dz)
  }

  // ------------------------------------------------------------- the springs

  const NanTangent: real := 100000.0
  const MinTangent: real := 1000.0
  const MaxTangent: real := 1000000000.0

  /** A reaction that is not finite counts as no reaction. */
  function Reaction(f: Float): (p: real)
    ensures f.Fin? ==> p == f.v
    ensures !f.Fin? ==> p == 0.0
  {
    NanToNum(f, 0.0, 0.0, 0.0)
  }

  /** The tangent is sanitised (NaN and -inf to 1e5, +inf to 1e9) and then
      clamped into [1e3, 1e9]. */
  function Tangent(f: Float): (k: real)
    ensures MinTangent <= k <= MaxTangent
    ensures f.Fin? && MinTangent <= f.v <= MaxTangent ==> k == f.v
    ensures f.Fin? && f.v < MinTangent ==> k == MinTangent
    ensures f.Fin? && f.v > MaxTangent ==> k == MaxTangent
    ensures f.NaN? || f.NegInf? ==> k == NanTangent
    ensures f.PosInf? ==> k == MaxTangent
  {
    Clip(NanToNum(f, NanTangent, MaxTangent, NanTangent), MinTangent, MaxTangent)
  }

  function Reactions(spring: Spring, y: seq<real>, z: seq<real>): (p: seq<real>)
    requires |y| == |z|
    ensures |p| == |y|
  {
    seq(|y|, i requires 0 <= i < |y| => Reaction(spring(y[i], z[i]).0))
  }

  function Tangents(spring: Spring, y: seq<real>, z: seq<real>): (k: seq<real>)
    requires |y| == |z|
    ensures |k| == |y| && forall i :: 0 <= i < |k| ==> MinTangent <= k[i] <= MaxTangent
  {
    var k := seq(|y|, i requires 0 <= i < |y| => Tangent(spring(y[i], z[i]).1));
    assert forall i :: 0 <= i < |y| ==> k[i] == Tangent(spring(y[i], z[i]).1);
    k
  }

  /** The spring loop over the nodes, then nan_to_num and clip. */
  method SampleSprings(spring: Spring, y: seq<real>, z: seq<real>) returns (p: seq<real>, k: seq<real>)
    requires |y| == |z|
    ensures p == Reactions(spring, y, z) && k == Tangents(spring, y, z)
  {
    var n := |y|;
    var pa := new Float[n](i => Fin(0.0));
    var ka := new Float[n](i => Fin(0.0));
    for i := 0 to n
      invariant forall j :: 0 <= j < i ==> pa[j] == spring(y[j], z[j]).0 && ka[j] == spring(y[j], z[j]).1
    {
      var pk := spring(y[i], z[i]);
      pa[i], ka[i] := pk.0, pk.1;
    }
    p := seq(n, i requires 0 <= i < n reads pa => Reaction(pa[i]));
    k := seq(n, i requires 0 <= i < n reads ka => Tangent(ka[i]));
  }

  // ------------------------------------------------------ the Newton system

  /** A matrix and right-hand side. */
  datatype System = System(a: Matrix, r: seq<real>)

  /** EI D4 - diag(k). */
  function BaseMatrix(ei: real, d4: Matrix, k: seq<real>): (a: Matrix)
    requires Square(d4, |k|)
    ensures Square(a, |k|)
  {
    seq(|k|, i requires 0 <= i < |k| =>
      seq(|k|, j requires 0 <= j < |k| => ei * d4[i][j] - (if i == j then k[i] else 0.0)))
  }

  /** p - EI (D4 @ y). */
  function BaseResidual(p: seq<real>, ei: real, d4: Matrix, y: seq<real>): (r: seq<real>)
    requires |p| == |y| && Square(d4, |y|)
    ensures |r| == |y|
  {
    seq(|y|, i requires 0 <= i < |y| => p[i] + Load(ei, d4[i], y))
  }

  /** Where rhs_bc is non-zero it overrides the residual. */
  function Masked(r: seq<real>, rhs: seq<real>): (m: seq<real>)
    requires |r| == |rhs|
    ensures |m| == |r|
  {
    seq(|r|, i requires 0 <= i < |r| => if rhs[i] != 0.0 then rhs[i] else r[i])
  }

  /** Outside the rows the boundary conditions replace, the masked residual
      is the PDE residual; in a replaced row it is rhs_bc unless that is 0. */
  lemma MaskedRows(r: seq<real>, b: Beam, y: seq<real>, bc: BCType)
    requires Valid(b) && |y| == |b.z| && |r| == |y|
    ensures forall i :: 0 <= i < |y| && !Replaced(|y|, bc, i) ==>
              Masked(r, BoundaryRhs(b.d2, b.d3, y, bc, b.ei, b.dz))[i] == r[i]
    ensures forall i :: 0 <= i < |y| && BoundaryRhs(b.d2, b.d3, y, bc, b.ei, b.dz)[i] != 0.0 ==>
              Masked(r, BoundaryRhs(b.d2, b.d3, y, bc, b.ei, b.dz))[i] == BoundaryRhs(b.d2, b.d3, y, bc, b.ei, b.dz)[i]
  {
    BoundaryFrame(BaseMatrix(b.ei, b.d4, seq(|y|, i => 0.0)), b.d2, b.d3, y, bc, b.ei, b.dz);
  }

  /** The tip-moment row carries a zero rhs_bc, so the mask keeps the PDE
      residual there. */
  lemma TipResidualKept(r: seq<real>, b: Beam, y: seq<real>, bc: BCType)
    requires Valid(b) && |y| == |b.z| >= 3 && |r| == |y|
    ensures Masked(r, BoundaryRhs(b.d2, b.d3, y, bc, b.ei, b.dz))[|y| - 1] == r[|y| - 1]
  {
    TipMomentRowVanishes(BaseMatrix(b.ei, b.d4, seq(|y|, i => 0.0)), y, bc, b.ei, b.dz);
  }

  /** Below these the head is taken as unloaded. */
  const QuietShear: real := 0.000001
  const QuietMoment: real := 0.000000001

  predicate Unloaded(lc: LateralLoadCase) {
    Abs(lc.hN) < QuietShear && Abs(lc.mNm) < QuietMoment
  }

  /** The free-head rows: an unloaded head pins y(0) to 0; otherwise row 0
      imposes EI y'''(0) = H and, for a non-zero moment, row 1 imposes
      EI y''(0) = M. */
  function HeadLoads(s: System, lc: LateralLoadCase, y: seq<real>, d2: Matrix, d3: Matrix, ei: real): (h: System)
    requires |y| >= 1 && Square(s.a, |y|) && |s.r| == |y| && Square(d2, |y|) && Square(d3, |y|)
    ensures Square(h.a, |y|) && |h.r| == |y|
  {
    var n := |y|;
    if Unloaded(lc) then System(s.a[0 := Unit(n, 0)], s.r[0 := -y[0]])
    else
      var a := s.a[0 := ScaleRow(ei, d3[0])];
      var r := s.r[0 := lc.hN + Load(ei, d3[0], y)];
      if Abs(lc.mNm) > 0.0 && n >= 2 then System(a[1 := ScaleRow(ei, d2[0])], r[1 := lc.mNm + Load(ei, d2[0], y)])
      else System(a, r)
  }

  /** Only rows 0 and 1 change, and row 1 only for a non-zero moment. */
  lemma HeadLoadsFrame(s: System, lc: LateralLoadCase, y: seq<real>, d2: Matrix, d3: Matrix, ei: real)
    requires |y| >= 1 && Square(s.a, |y|) && |s.r| == |y| && Square(d2, |y|) && Square(d3, |y|)
    ensures forall i :: 2 <= i < |y| ==>
              HeadLoads(s, lc, y, d2, d3, ei).a[i] == s.a[i] && HeadLoads(s, lc, y, d2, d3, ei).r[i] == s.r[i]
    ensures |y| >= 2 && (Unloaded(lc) || lc.mNm == 0.0) ==>
              HeadLoads(s, lc, y, d2, d3, ei).a[1] == s.a[1] && HeadLoads(s, lc, y, d2, d3, ei).r[1] == s.r[1]
  {
  }

  /** An unloaded head replaces row 0 by the unit row e_0 with right-hand
      side -y(0), so the increment pins the head deflection to zero. */
  lemma HeadPinned(s: System, lc: LateralLoadCase, y: seq<real>, d2: Matrix, d3: Matrix, ei: real)
    requires |y| >= 1 && Square(s.a, |y|) && |s.r| == |y| && Square(d2, |y|) && Square(d3, |y|)
    requires Unloaded(lc)
    ensures HeadLoads(s, lc, y, d2, d3, ei).a[0] == Unit(|y|, 0)
    ensures HeadLoads(s, lc, y, d2, d3, ei).r[0] == -y[0]
  {
  }

  /** Since rows 0 of D2 and D3 are zero, a loaded free head leaves a zero
      row 0 whose right-hand side is H, and, for a non-zero moment, a zero
      row 1 whose right-hand side is M: the head loads enter only through
      the regularisation. */
  lemma HeadRowsVanish(s: System, lc: LateralLoadCase, y: seq<real>, b: Beam)
    requires Valid(b) && |y| == |b.z| && Square(s.a, |y|) && |s.r| == |y| && !Unloaded(lc)
    ensures ZeroRow(HeadLoads(s, lc, y, b.d2, b.d3, b.ei).a[0])
    ensures HeadLoads(s, lc, y, b.d2, b.d3, b.ei).r[0] == lc.hN
    ensures lc.mNm != 0.0 ==> ZeroRow(HeadLoads(s, lc, y, b.d2, b.d3, b.ei).a[1])
    ensures lc.mNm != 0.0 ==> HeadLoads(s, lc, y, b.d2, b.d3, b.ei).r[1] == lc.mNm
  {
    var n := |y|;
    BoundaryRowsZero(n, b.dz);
    ScaleZeroRow(b.ei, b.d3[0]);
    ScaleZeroRow(b.ei, b.d2[0]);
    DotZero(b.d3[0], y);
    DotZero(b.d2[0], y);
  }

  /** The regularisation 1e-9 EI on the diagonal. */
  function Ridge(ei: real): real {
    0.000000001 * ei
  }

  /** A + 1e-9 EI I. */
  function Regularized(a: Matrix, n: nat, ei: real): (m: Matrix)
    requires Square(a, n)
    ensures Square(m, n)
  {
    seq(n, i requires 0 <= i < n => seq(n, j requires 0 <= j < n => a[i][j] + (if i == j then Ridge(ei) else 0.0)))
  }

  /** The regularised system differs from A only on the diagonal, by 1e-9 EI. */
  lemma RegularizedDiagonal(a: Matrix, n: nat, ei: real)
    requires Square(a, n)
    ensures forall i, j :: 0 <= i < n && 0 <= j < n && i != j ==> Regularized(a, n, ei)[i][j] == a[i][j]
    ensures forall i :: 0 <= i < n ==> Regularized(a, n, ei)[i][i] - a[i][i] == Ridge(ei)
  {
  }

  /** The Newton system at deflection y: EI D4 - diag(k) and p - EI D4 y,
      the boundary rows, the residual mask, the free-head rows and the
      regularisation, in this order. */
  function SystemAt(b: Beam, cfg: LateralConfig, lc: LateralLoadCase, spring: Spring, y: seq<real>): (s: System)
    requires Valid(b) && |y| == |b.z|
    ensures Square(s.a, |y|) && |s.r| == |y|
  {
    var n := |y|;
    var a := BoundaryRows(BaseMatrix(b.ei, b.d4, Tangents(spring, y, b.z)), b.d2, b.d3, n, cfg.bc, b.ei, b.dz);
    var r := Masked(BaseResidual(Reactions(spring, y, b.z), b.ei, b.d4, y), BoundaryRhs(b.d2, b.d3, y, cfg.bc, b.ei, b.dz));
    var s := if cfg.bc == FreeHead then HeadLoads(System(a, r), lc, y, b.d2, b.d3, b.ei) else System(a, r);
    System(Regularized(s.a, n, b.ei), s.r)
  }

  /** The increment dy the solver returns for the system at y. */
  function Increment(b: Beam, cfg: LateralConfig, lc: LateralLoadCase, spring: Spring, solve: Solver, y: seq<real>): (dy: seq<Float>)
    requires Valid(b) && |y| == |b.z|
    ensures |dy| == |y|
  {
    var s := SystemAt(b, cfg, lc, spring, y);
    seq(|y|, i requires 0 <= i < |y| => solve(s.a, s.r, i))
  }

  /** An n-by-n array holding m. */
  method NewMatrix(m: Matrix, n: nat) returns (a: array2<real>)
    requires Square(m, n)
    ensures fresh(a) && a.Length0 == n && a.Length1 == n && Rows(a, n) == m
  {
    a := new real[n, n]((i, j) requires 0 <= i < n && 0 <= j < n => m[i][j]);
    assert forall i :: 0 <= i < n ==> Rows(a, n)[i] == m[i];
  }

  /** The free-head rows, written into A in place. */
  method InjectHeadLoads(a: array2<real>, r: seq<real>, lc: LateralLoadCase, y: seq<real>, d2: Matrix, d3: Matrix, ei: real)
      returns (r': seq<real>)
    requires |y| >= 1 && a.Length0 == |y| && a.Length1 == |y| && |r| == |y| && Square(d2, |y|) && Square(d3, |y|)
    modifies a
    ensures System(Rows(a, |y|), r') == HeadLoads(System(old(Rows(a, |y|)), r), lc, y, d2, d3, ei)
  {
    var n := |y|;
    r' := r;
    if Abs(lc.hN) < QuietShear && Abs(lc.mNm) < QuietMoment {
      SetRow(a, n, 0, Unit(n, 0));
      r' := r'[0 := -y[0]];
    } else {
      SetRow(a, n, 0, ScaleRow(ei, d3[0]));
      r' := r'[0 := lc.hN + Load(ei, d3[0], y)];
      if Abs(lc.mNm) > 0.0 && n >= 2 {
        SetRow(a, n, 1, ScaleRow(ei, d2[0]));
        r' := r'[1 := lc.mNm + Load(ei, d2[0], y)];
      }
    }
  }

  /** A += 1e-9 EI I, in place. */
  method Regularize(a: array2<real>, n: nat, ei: real)
    requires a.Length0 == n && a.Length1 == n
    modifies a
    ensures Rows(a, n) == Regularized(old(Rows(a, n)), n, ei)
  {
    forall i | 0 <= i < n {
      a[i, i] := a[i, i] + Ridge(ei);
    }
    assert forall i :: 0 <= i < n ==> Rows(a, n)[i] == Regularized(old(Rows(a, n)), n, ei)[i];
  }

  /** One Newton increment: springs, system, boundary rows, mask, head rows,
      regularisation and the solve. */
  method NewtonIncrement(b: Beam, cfg: LateralConfig, lc: LateralLoadCase, spring: Spring, solve: Solver, y: seq<real>)
      returns (dy: seq<Float>)
    requires Valid(b) && |y| == |b.z|
    ensures dy == Increment(b, cfg, lc, spring, solve, y)
  {
    var n := |y|;
    var p, k := SampleSprings(spring, y, b.z);
    var a := NewMatrix(BaseMatrix(b.ei, b.d4, k), n);
    var r := BaseResidual(p, b.ei, b.d4, y);
    var rhs := ApplyBoundaryConditions(a, b.d2, b.d3, y, cfg.bc, b.ei, b.dz);
    r := Masked(r, rhs);
    if cfg.bc == FreeHead {
      r := InjectHeadLoads(a, r, lc, y, b.d2, b.d3, b.ei);
    }
    Regularize(a, n, b.ei);
    var m := Rows(a, n);
    assert System(m, r) == SystemAt(b, cfg, lc, spring, y);
    dy := seq(n, i requires 0 <= i < n => solve(m, r, i));
  }

  // ------------------------------------------------------------ iterations

  /** How one Newton iteration ends. */
  datatype Outcome = NonFinite | Diverged | Converged | Continue

  /** y + relax dy. */
  function Relaxed(y: seq<real>, relax: real, dy: seq<real>): (r: seq<real>)
    requires |dy| == |y|
    ensures |r| == |y|
  {
    seq(|y|, i requires 0 <= i < |y| => y[i] + relax * dy[i])
  }

  /** np.nan_to_num(y, nan=0, posinf=0, neginf=0). */
  function Sanitized(y: seq<real>): (r: seq<real>)
    ensures |r| == |y|
  {
    seq(|y|, i requires 0 <= i < |y| => NanToNum(Fin(y[i]), 0.0, 0.0, 0.0))
  }

  /** The candidate y_new is overwritten by nan_to_num of the current y,
      which is y itself. */
  lemma SanitizedIsIdentity(y: seq<real>)
    ensures Sanitized(y) == y
  {
  }

  /** The break tests of one iteration, in order: a non-finite increment, a
      relaxed deflection beyond half the diameter, and the convergence test
      on the largest increment (measured against the unrelaxed y). */
  function Decide(dy: seq<Float>, y: seq<real>, cfg: LateralConfig, d: real): Outcome
    requires |dy| == |y| > 0
  {
    if !AllFinite(dy) then NonFinite
    else if MaxAbs(Relaxed(y, cfg.relax, Values(dy))) > 0.5 * d then Diverged
    else if MaxAbs(Values(dy)) < cfg.tol * Max(0.00001, MaxAbs(Sanitized(y))) then Converged
    else Continue
  }

  /** The Newton iterations of one load step. The deflection never moves,
      so every iteration sees the same system and the same increment: the
      loop converges exactly when it runs at all and its first increment
      passes the convergence test. */
  method Iterate(b: Beam, cfg: LateralConfig, lc: LateralLoadCase, spring: Spring, solve: Solver, d: real, y0: seq<real>)
      returns (y: seq<real>, converged: bool)
    requires Valid(b) && |y0| == |b.z|
    ensures y == y0
    ensures converged <==> cfg.maxIters > 0 && Decide(Increment(b, cfg, lc, spring, solve, y0), y0, cfg, d) == Converged
  {
    y := y0;
    converged := false;
    ghost var outcome := Decide(Increment(b, cfg, lc, spring, solve, y0), y0, cfg, d);
    var it := 0;
    while it < cfg.maxIters
      invariant y == y0 && !converged
      invariant it > 0 ==> outcome == Continue
      decreases cfg.maxIters - it
    {
      var dy := NewtonIncrement(b, cfg, lc, spring, solve, y);
      if !AllFinite(dy) {
        break;
      }
      var yNew := Relaxed(y, cfg.relax, Values(dy));
      if MaxAbs(yNew) > 0.5 * d {
        break;
      }
      yNew := Sanitized(y);
      SanitizedIsIdentity(y);
      if MaxAbs(Values(dy)) < cfg.tol * Max(0.00001, MaxAbs(yNew)) {
        y := yNew;
        converged := true;
        break;
      }
      y := yNew;
      it := it + 1;
    }
  }

  // -------------------------------------------------------- post-processing

  /** theta: forward difference at the head, backward at the tip, central
      differences between. */
  function Rotation(y: seq<real>, dz: real): (t: seq<real>)
    requires |y| >= 2 && dz != 0.0
    ensures |t| == |y|
  {
    var n := |y|;
    seq(n, i requires 0 <= i < n =>
      if i == 0 then Slope(y[0], y[1], dz)
      else if i == n - 1 then Slope(y[n - 2], y[n - 1], dz)
      else (y[i + 1] - y[i - 1]) / (2.0 * dz))
  }

  /** On a profile with constant node-to-node increments delta every
      difference formula gives the exact slope delta / dz. */
  lemma {:induction false} RotationExactOnLines(y: seq<real>, dz: real, delta: real)
    requires |y| >= 2 && dz != 0.0
    requires forall i :: 0 <= i < |y| - 1 ==> y[i + 1] - y[i] == delta
    ensures forall i :: 0 <= i < |y| ==> Rotation(y, dz)[i] == delta / dz
  {
    var n := |y|;
    forall i | 0 <= i < n
      ensures Rotation(y, dz)[i] == delta / dz
    {
      if i == 0 {
        assert y[1] - y[0] == delta;
        assert Rotation(y, dz)[i] == Slope(y[0], y[1], dz);
      } else if i == n - 1 {
        assert y[n - 1] - y[n - 2] == delta;
        assert Rotation(y, dz)[i] == Slope(y[n - 2], y[n - 1], dz);
      } else {
        assert y[i + 1] - y[i - 1] == 2.0 * delta by {
          assert y[i + 1] - y[i] == delta && y[i] - y[i - 1] == delta;
        }
        Halves(delta, dz);
        assert Rotation(y, dz)[i] == (y[i + 1] - y[i - 1]) / (2.0 * dz);
      }
    }
  }

  lemma Halves(x: real, dz: real)
    requires dz != 0.0
    ensures (2.0 * x) / (2.0 * dz) == x / dz
  {
    var q := x / dz;
    assert q * dz == x;
    assert (2.0 * x) == q * (2.0 * dz);
  }

  /** The results reported for one load step with deflection y. */
  function StepResults(b: Beam, y: seq<real>, spring: Spring): (res: LateralResults)
    requires Valid(b) && |y| == |b.z|
  {
    var n := |y|;
    var theta := Rotation(y, b.dz);
    LateralResults(
      b.z, y, Fins(theta),
      Fins(ScaleRow(b.ei, MatVec(b.d2, n, y))),
      Fins(ScaleRow(b.ei, MatVec(b.d3, n, y))),
      Outputs(spring, y, b.z),
      y[0] * 1000.0,
      Fin(theta[0] * 1000.0))
  }

  /** p_out: the raw spring reactions, not sanitised. */
  function Outputs(spring: Spring, y: seq<real>, z: seq<real>): (p: seq<Float>)
    requires |y| == |z|
    ensures |p| == |y|
  {
    seq(|y|, i requires 0 <= i < |y| => spring(y[i], z[i]).0)
  }

  /** With the operators of finite_diff_mats the reported moment and shear
      are zero at the head and the tip whatever the loads: the head moment
      M and shear H never show in the output. */
  lemma ReportedEndsZero(b: Beam, y: seq<real>, spring: Spring)
    requires Valid(b) && |y| == |b.z|
    ensures StepResults(b, y, spring).mNm[0] == Fin(0.0) && StepResults(b, y, spring).mNm[|y| - 1] == Fin(0.0)
    ensures StepResults(b, y, spring).vN[0] == Fin(0.0) && StepResults(b, y, spring).vN[|y| - 1] == Fin(0.0)
  {
    var n := |y|;
    BoundaryRowsZero(n, b.dz);
    MatVecZeroRow(b.d2, n, y, 0);
    MatVecZeroRow(b.d2, n, y, n - 1);
    MatVecZeroRow(b.d3, n, y, 0);
    MatVecZeroRow(b.d3, n, y, n - 1);
  }

  /** With dz = 0 numpy divides by zero: rotations, moments and shears are
      all NaN. */
  function DegenerateResults(z: seq<real>, y: seq<real>, spring: Spring): (res: LateralResults)
    requires |y| == |z| >= 1
  {
    var nans := seq(|y|, i => NaN);
    LateralResults(z, y, nans, nans, nans, Outputs(spring, y, z), y[0] * 1000.0, NaN)
  }

  // ---------------------------------------------------------------- driver

  /** y_prev = 1e-6 exp(-z / max(1e-9, 0.2 L)). */
  function InitialDeflection(z: seq<real>, lengthM: real, m: MathLib): (y: seq<real>)
    ensures |y| == |z|
  {
    var scale := Max(0.000000001, 0.2 * lengthM);
    seq(|z|, i requires 0 <= i < |z| => 0.000001 * m.exp(-z[i] / scale))
  }

  function Grid(pile: PileProps): (z: seq<real>)
    requires pile.nNodes >= 2
    ensures |z| == pile.nNodes
  {
    Linspace(0.0, pile.lengthM, pile.nNodes as nat)
  }

  /** The results every load step reports. */
  function Reported(pile: PileProps, spring: Spring, m: MathLib): LateralResults
    requires pile.nNodes >= 2
  {
    var z := Grid(pile);
    var dz := z[1] - z[0];
    var y := InitialDeflection(z, pile.lengthM, m);
    if dz == 0.0 then DegenerateResults(z, y, spring)
    else StepResults(Beam(z, dz, pile.eiNm2, D2Mat(|z|, dz), D3Mat(|z|, dz), D4Mat(|z|, dz)), y, spring)
  }

  /** What lateral_analysis returns. Neither the solver nor the
      configuration appears: y never leaves its initial profile and the
      convergence flag is never reported. */
  function Analysis(pile: PileProps, loads: seq<LateralLoadCase>, spring: Spring, m: MathLib): Result<LateralOutput> {
    if pile.nNodes < 0 then Err(ValueError)
    else if pile.nNodes < 2 then Err(IndexError)
    else
      var y := InitialDeflection(Grid(pile), pile.lengthM, m);
      Ok(LateralOutput(
        seq(|loads|, i => Reported(pile, spring, m)),
        seq(|loads|, i requires 0 <= i < |loads| => (loads[i].hN, y[0])),
        pile.eiNm2, pile.lengthM, pile.nNodes as nat))
  }

  /** The results of a step that starts, and so ends, at y0. */
  function StepReport(b: Beam, y0: seq<real>, spring: Spring): LateralResults
    requires |b.z| >= 2 && |y0| == |b.z| && (b.dz != 0.0 ==> Valid(b))
  {
    if b.dz == 0.0 then DegenerateResults(b.z, y0, spring) else StepResults(b, y0, spring)
  }

  /** The grid z, its spacing dz = z[1] - z[0], EI and, for dz != 0, the
      operators of finite_diff_mats. */
  method Setup(pile: PileProps) returns (b: Beam)
    requires pile.nNodes >= 2
    ensures b.z == Grid(pile) && b.dz == b.z[1] - b.z[0] && b.ei == pile.eiNm2
    ensures b.dz != 0.0 ==> Valid(b)
  {
    var n := pile.nNodes as nat;
    var z := Linspace(0.0, pile.lengthM, n);
    var dz := z[1] - z[0];
    b := Beam(z, dz, pile.eiNm2, [], [], []);
    if dz != 0.0 {
      var d2, d3, d4 := FiniteDiffMats(n, dz);
      b := Beam(z, dz, pile.eiNm2, d2, d3, d4);
    }
  }

  lemma ReportedIsStepReport(pile: PileProps, b: Beam, spring: Spring, m: MathLib)
    requires pile.nNodes >= 2
    requires b.z == Grid(pile) && b.dz == b.z[1] - b.z[0] && b.ei == pile.eiNm2
    requires b.dz != 0.0 ==> Valid(b)
    ensures Reported(pile, spring, m) == StepReport(b, InitialDeflection(b.z, pile.lengthM, m), spring)
  {
  }

  /** lateral_analysis: per load step, Newton iterations from the previous
      step's deflection, post-processing, and one result and one head-curve
      point appended. */
  method LateralAnalysis(pile: PileProps, loads: seq<LateralLoadCase>, spring: Spring, cfg: LateralConfig,
                         m: MathLib, solve: Solver) returns (out: Result<LateralOutput>)
    ensures out == Analysis(pile, loads, spring, m)
  {
    if pile.nNodes < 0 {
      return Err(ValueError);
    }
    if pile.nNodes < 2 {
      return Err(IndexError);
    }
    var b := Setup(pile);
    var y0 := InitialDeflection(b.z, pile.lengthM, m);
    var steps, headCurve := RunLoads(b, loads, cfg, spring, solve, pile.dM, y0);
    ReportedIsStepReport(pile, b, spring, m);
    out := Ok(LateralOutput(steps, headCurve, pile.eiNm2, pile.lengthM, pile.nNodes as nat));
  }

  /** The loop over the load steps; y_prev carries each step's deflection
      into the next. */
  method RunLoads(b: Beam, loads: seq<LateralLoadCase>, cfg: LateralConfig, spring: Spring, solve: Solver,
                  d: real, y0: seq<real>) returns (steps: seq<LateralResults>, headCurve: seq<(real, real)>)
    requires |b.z| >= 2 && |y0| == |b.z| && b.dz == b.z[1] - b.z[0] && (b.dz != 0.0 ==> Valid(b))
    ensures steps == seq(|loads|, i => StepReport(b, y0, spring))
    ensures headCurve == seq(|loads|, i requires 0 <= i < |loads| => (loads[i].hN, y0[0]))
  {
    var yPrev := y0;
    steps := [];
    headCurve := [];
    for s := 0 to |loads|
      invariant yPrev == y0
      invariant steps == seq(s, i => StepReport(b, y0, spring))
      invariant headCurve == seq(s, i requires 0 <= i < s => (loads[i].hN, y0[0]))
    {
      var res, y := LoadStep(b, b.z, cfg, loads[s], spring, solve, d, yPrev);
      steps := steps + [res];
      headCurve := headCurve + [(loads[s].hN, y[0])];
      yPrev := y;
    }
  }

  /** One load step: the Newton iterations from the previous deflection,
      then the post-processing. */
  method LoadStep(b: Beam, z: seq<real>, cfg: LateralConfig, lc: LateralLoadCase, spring: Spring, solve: Solver,
                  d: real, yPrev: seq<real>) returns (res: LateralResults, y: seq<real>)
    requires |z| >= 2 && |yPrev| == |z| && b.z == z
    requires b.dz == z[1] - z[0] && (b.dz != 0.0 ==> Valid(b))
    ensures y == yPrev && res == StepReport(b, yPrev, spring)
  {
    y := yPrev;
    if b.dz != 0.0 {
      var converged;
      y, converged := Iterate(b, cfg, lc, spring, solve, d, yPrev);
      res := StepResults(b, y, spring);
    } else {
      res := DegenerateResults(z, y, spring);
    }
  }

  // ---------------------------------------------------- about the analysis

  /** Each load step appends one result and one head-curve point, in order,
      and the head curve pairs each step's H with the head deflection that
      step reports. */
  lemma StepsInOrder(pile: PileProps, loads: seq<LateralLoadCase>, spring: Spring, m: MathLib)
    requires Analysis(pile, loads, spring, m).Ok?
    ensures |Analysis(pile, loads, spring, m).value.steps| == |loads|
    ensures |Analysis(pile, loads, spring, m).value.headCurve| == |loads|
    ensures forall i :: 0 <= i < |loads| ==>
              Analysis(pile, loads, spring, m).value.headCurve[i].0 == loads[i].hN &&
              Analysis(pile, loads, spring, m).value.headCurve[i].1 * 1000.0 ==
                Analysis(pile, loads, spring, m).value.steps[i].headDeflectionMm
  {
  }

  /** Every step reports the initial profile 1e-6 exp(-z / max(1e-9, 0.2 L))
      as its deflection, whatever the loads, the springs and the solver. */
  lemma DeflectionNeverAdvances(pile: PileProps, loads: seq<LateralLoadCase>, spring: Spring, m: MathLib)
    requires Analysis(pile, loads, spring, m).Ok?
    ensures forall i :: 0 <= i < |loads| ==>
              Analysis(pile, loads, spring, m).value.steps[i].yM == InitialDeflection(Grid(pile), pile.lengthM, m)
  {
  }

  /** The node count decides the error cases: a negative count fails in
      np.linspace, fewer than two nodes fail at z[1]. */
  lemma AnalysisErrors(pile: PileProps, loads: seq<LateralLoadCase>, spring: Spring, m: MathLib)
    ensures Analysis(pile, loads, spring, m) == Err(ValueError) <==> pile.nNodes < 0
    ensures Analysis(pile, loads, spring, m) == Err(IndexError) <==> 0 <= pile.nNodes < 2
    ensures Analysis(pile, loads, spring, m).Ok? <==> pile.nNodes >= 2
  {
  }

  /** Every step reports zero moment and shear at the head and the tip. */
  lemma ReportedHeadMomentZero(pile: PileProps, loads: seq<LateralLoadCase>, spring: Spring, m: MathLib)
    requires pile.nNodes >= 2 && pile.lengthM != 0.0
    ensures forall i :: 0 <= i < |loads| ==>
              Analysis(pile, loads, spring, m).value.steps[i].mNm[0] == Fin(0.0) &&
              Analysis(pile, loads, spring, m).value.steps[i].vN[0] == Fin(0.0)
  {
    var z := Grid(pile);
    var dz := z[1] - z[0];
    assert dz != 0.0;
    var b := Beam(z, dz, pile.eiNm2, D2Mat(|z|, dz), D3Mat(|z|, dz), D4Mat(|z|, dz));
    ReportedEndsZero(b, InitialDeflection(z, pile.lengthM, m), spring);
  }
}
