/** Axial load-settlement analysis of a single pile (axial_analysis): the pile
    is cut into segments, the node settlements w are found at ten load levels
    by a capped Newton iteration on a tridiagonal bar-and-spring system, and
    the final settlement profile is post-processed into cumulative shaft shear
    and toe resistance. */
module Axial {
  import opened Numerics
  import opened Curves
  import opened LayerLookup
  import opened Interpolation

  const MinSegments: nat := 10
  const LoadLevels: nat := 10
  const MaxIterations: nat := 80
  /** Newton stops once every increment component is below 1 micron. */
  const StepTolerance: real := 0.000001
  /** The largest increment component (0.5 mm) a Newton step may take. */
  const MaxStep: real := 0.0005
  /** Lower bound of the secant width used for a curve's tangent. */
  const MinSecant: real := 0.00000001

  datatype AxialPile = AxialPile(lengthM: real, diameterM: real, elasticModulusPa: real)

  /** int(max(10, n_segments)). */
  function SegmentCount(requested: int): (n: nat)
    ensures n >= MinSegments && n >= requested
    ensures n == MinSegments || n == requested
  {
    if requested > 10 then requested else 10
  }

  /** loads.get("axial_kN", 0.0). */
  function TargetLoad(axialKN: Option<real>): real {
    match axialKN
    case None => 0.0
    case Some(p) => p
  }

  function Area(d: real): real { 0.25 * PI * (d * d) }

  function Perimeter(d: real): real { PI * d }

  function Zeros(n: nat): (r: seq<real>)
    ensures |r| == n && forall i :: 0 <= i < n ==> r[i] == 0.0
  {
    seq(n, i => 0.0)
  }

  // ------------------------------------------------------------ soil curves

  /** The t-z curve used at depth zz: the single point (0, 0) for an empty profile. */
  function ShaftCurve(profile: seq<Layer>, d: real, zz: real, m: MathLib): (c: Curve)
    ensures |c.z| == |c.t|
    ensures profile == [] ==> c == Curve([0.0], [0.0])
    ensures profile != [] ==> c == TzCurve(LayerAt(profile, zz).value, d, zz, m)
  {
    match LayerAt(profile, zz)
    case None => Curve([0.0], [0.0])
    case Some(layer) => TzCurve(layer, d, zz, m)
  }

  /** The q-z curve at the toe: the single point (0, 0) for an empty profile;
      it fails exactly when the toe layer's q_max does. */
  function TipCurve(profile: seq<Layer>, d: real, length: real, m: MathLib): (r: Result<Curve>)
    ensures r.Ok? ==> |r.value.z| == |r.value.t|
    ensures profile == [] ==> r == Ok(Curve([0.0], [0.0]))
    ensures r.Err? <==> profile != [] && TipPeak(LayerAt(profile, length).value, length, m).Err?
  {
    match LayerAt(profile, length)
    case None => Ok(Curve([0.0], [0.0]))
    case Some(layer) => QzCurve(layer, d, length, m)
  }

  /** The curve's value at x through the robust interpolator. */
  function CurveAt(c: Curve, x: real): real
    requires |c.z| == |c.t|
  {
    InterpClamped(x, Fins(c.z), Fins(c.t))
  }

  /** ds = max(1e-8, 0.05 (max z - min z)). */
  function SecantWidth(zs: seq<real>): (ds: real)
    requires |zs| > 0
    ensures ds >= MinSecant
    ensures ds >= 0.05 * (SeqMax(zs) - SeqMin(zs))
    ensures ds == MinSecant || ds == 0.05 * (SeqMax(zs) - SeqMin(zs))
  {
    Max(MinSecant, 0.05 * (SeqMax(zs) - SeqMin(zs)))
  }

  /** The slip x + ds at which the secant's far point is read. */
  function Ahead(x: real, ds: real): real { x + ds }

  /** The slope (t2 - t1) / ds of the secant through two values ds apart. */
  function Secant(t1: real, t2: real, ds: real): real
    requires ds != 0.0
  {
    (t2 - t1) / ds
  }

  /** Forward secant slope of the curve at x, where its value is t; zero for a
      curve of at most one point. */
  function SecantSlope(c: Curve, x: real, t: real): real
    requires |c.z| == |c.t|
  {
    if |c.z| > 1 then
      var ds := SecantWidth(c.z);
      Secant(t, CurveAt(c, Ahead(x, ds)), ds)
    else 0.0
  }

  /** 1.0 if u >= 0 else -1.0. */
  function Direction(u: real): real { if u >= 0.0 then 1.0 else -1.0 }

  // --------------------------------------------------------- discretisation

  /** The discretised pile: n segments of length dz, nodes z, the soil
      profile and the (already obtained) q-z curve at the toe. */
  datatype Bar = Bar(n: nat, dz: real, ea: real, area: real, perimeter: real,
                     z: seq<real>, profile: seq<Layer>, d: real, m: MathLib, tip: Curve)
  {
    predicate Valid() {
      n >= MinSegments && dz != 0.0 && |z| == n + 1 && |tip.z| == |tip.t|
    }
  }

  /** The bar of a pile: n = max(10, n_segments), dz = L / n, z = linspace(0, L, n + 1). */
  function BarOf(pile: AxialPile, profile: seq<Layer>, nSegments: int, m: MathLib, tip: Curve): (b: Bar)
    ensures b.n == SegmentCount(nSegments) && |b.z| == b.n + 1
    ensures b.z[0] == 0.0 && b.z[b.n] == pile.lengthM
    ensures b.dz == 0.0 <==> pile.lengthM == 0.0
  {
    var n := SegmentCount(nSegments);
    var a := Area(pile.diameterM);
    Bar(n, pile.lengthM / (n as real), pile.elasticModulusPa * a, a, Perimeter(pile.diameterM),
        Linspace(0.0, pile.lengthM, n + 1), profile, pile.diameterM, m, tip)
  }

  predicate Fits(b: Bar, w: seq<real>) { b.Valid() && |w| == b.n + 1 }

  /** EA / dz^2, the bar's interior stencil coefficient. */
  function Stiffness(b: Bar): real
    requires b.Valid()
  {
    b.ea / (b.dz * b.dz)
  }

  function NodeCurve(b: Bar, i: nat): (c: Curve)
    requires b.Valid() && i <= b.n
    ensures |c.z| == |c.t|
  {
    ShaftCurve(b.profile, b.d, b.z[i], b.m)
  }

  /** The relative movement |w[i] - w[i-1]| along the segment above node i. */
  function Slip(w: seq<real>, i: nat): real
    requires 1 <= i < |w|
  {
    Abs(w[i] - w[i - 1])
  }

  /** A stress in kPa times 1e3 times the length or area it acts on. */
  function Force(stressKPa: real, extent: real): real { stressKPa * 1000.0 * extent }

  /** A tangent in kPa per metre turned into newtons per metre (of perimeter
      or toe area), signed by the direction u of the slip. */
  function SignedTangent(slopeKPa: real, extent: real, u: real): real {
    slopeKPa * 1000.0 * extent * Direction(u)
  }

  /** Side load q_side (N/m) at interior node i: the t-z stress at the slip,
      in Pa, times the perimeter. */
  function SideLoad(b: Bar, w: seq<real>, i: nat): real
    requires Fits(b, w) && 1 <= i < b.n
  {
    Force(CurveAt(NodeCurve(b, i), Slip(w, i)), b.perimeter)
  }

  /** d q_side / d w[i] from the secant slope, signed by the direction of slip. */
  function SideTangent(b: Bar, w: seq<real>, i: nat): real
    requires Fits(b, w) && 1 <= i < b.n
  {
    var c := NodeCurve(b, i);
    SignedTangent(SecantSlope(c, Slip(w, i), CurveAt(c, Slip(w, i))), b.perimeter, w[i] - w[i - 1])
  }

  /** Toe resistance Q_toe (N) at the toe settlement w[n]. */
  function ToeLoad(b: Bar, w: seq<real>): real
    requires Fits(b, w)
  {
    Force(CurveAt(b.tip, Abs(w[b.n])), b.area)
  }

  function ToeTangent(b: Bar, w: seq<real>): real
    requires Fits(b, w)
  {
    SignedTangent(SecantSlope(b.tip, Abs(w[b.n]), CurveAt(b.tip, Abs(w[b.n]))), b.area, w[b.n])
  }

  /** Head equilibrium EA (w1 - w0) / dz - P. */
  function HeadResidual(b: Bar, w: seq<real>, p: real): real
    requires Fits(b, w)
  {
    b.ea * (w[1] - w[0]) / b.dz - p
  }

  /** The bar equation EA w'' + q_side at interior node i. */
  function InteriorResidual(b: Bar, w: seq<real>, i: nat, qSide: real): real
    requires Fits(b, w) && 1 <= i < b.n
  {
    b.ea * (w[i + 1] - 2.0 * w[i] + w[i - 1]) / (b.dz * b.dz) + qSide
  }

  /** Toe equilibrium EA (w[n] - w[n-1]) / dz + Q_toe. */
  function ToeResidual(b: Bar, w: seq<real>, qToe: real): real
    requires Fits(b, w)
  {
    b.ea * (w[b.n] - w[b.n - 1]) / b.dz + qToe
  }

  /** Residual of node i under head load p (N). */
  function ResidualAt(b: Bar, w: seq<real>, p: real, i: nat): real
    requires Fits(b, w) && i <= b.n
  {
    if i == 0 then HeadResidual(b, w, p)
    else if i < b.n then InteriorResidual(b, w, i, SideLoad(b, w, i))
    else ToeResidual(b, w, ToeLoad(b, w))
  }

  /** Entry (i, j) of the Jacobian. */
  function JacobianAt(b: Bar, w: seq<real>, i: nat, j: nat): real
    requires Fits(b, w) && i <= b.n && j <= b.n
  {
    if i == 0 then
      if j == 0 then -b.ea / b.dz else if j == 1 then b.ea / b.dz else 0.0
    else if i < b.n then
      var k := Stiffness(b);
      var g := SideTangent(b, w, i);
      if j == i - 1 then k - g
      else if j == i then -2.0 * k + g
      else if j == i + 1 then k
      else 0.0
    else
      if j == b.n - 1 then -b.ea / b.dz
      else if j == b.n then b.ea / b.dz + ToeTangent(b, w)
      else 0.0
  }

  /** The Jacobian is tridiagonal: every entry off the three central diagonals is zero. */
  lemma JacobianTridiagonal(b: Bar, w: seq<real>, i: nat, j: nat)
    requires Fits(b, w) && i <= b.n && j <= b.n
    requires j + 1 < i || i + 1 < j
    ensures JacobianAt(b, w, i, j) == 0.0
  {
  }

  /** The head row is [-EA/dz, EA/dz, 0, ...]. */
  lemma JacobianHeadRow(b: Bar, w: seq<real>)
    requires Fits(b, w)
    ensures JacobianAt(b, w, 0, 0) == -b.ea / b.dz && JacobianAt(b, w, 0, 1) == b.ea / b.dz
    ensures forall j :: 2 <= j <= b.n ==> JacobianAt(b, w, 0, j) == 0.0
  {
  }

  /** In an interior row the soil tangent is added on the diagonal and
      subtracted on the left, so the row sums to zero. */
  lemma JacobianInteriorRow(b: Bar, w: seq<real>, i: nat)
    requires Fits(b, w) && 1 <= i < b.n
    ensures JacobianAt(b, w, i, i) == -2.0 * Stiffness(b) + SideTangent(b, w, i)
    ensures JacobianAt(b, w, i, i - 1) == Stiffness(b) - SideTangent(b, w, i)
    ensures JacobianAt(b, w, i, i + 1) == Stiffness(b)
    ensures JacobianAt(b, w, i, i - 1) + JacobianAt(b, w, i, i) + JacobianAt(b, w, i, i + 1) == 0.0
  {
  }

  /** The toe row is [0, ..., -EA/dz, EA/dz + dQ_toe/dw]. */
  lemma JacobianToeRow(b: Bar, w: seq<real>)
    requires Fits(b, w)
    ensures JacobianAt(b, w, b.n, b.n - 1) == -b.ea / b.dz
    ensures JacobianAt(b, w, b.n, b.n) == b.ea / b.dz + ToeTangent(b, w)
  {
  }

  /** The Jacobian at w as a matrix of rows. */
  function Matrix(b: Bar, w: seq<real>): (J: seq<seq<real>>)
    requires Fits(b, w)
    ensures |J| == b.n + 1 && forall i :: 0 <= i <= b.n ==> |J[i]| == b.n + 1
  {
    seq(b.n + 1, i requires 0 <= i <= b.n =>
      seq(b.n + 1, j requires 0 <= j <= b.n => JacobianAt(b, w, i, j)))
  }

  /** The head and toe rows of Matrix(b, w), entry by entry. */
  lemma MatrixEndRows(b: Bar, w: seq<real>)
    requires Fits(b, w)
    ensures var M := Matrix(b, w);
      M[0][0] == -b.ea / b.dz && M[0][1] == b.ea / b.dz &&
      (forall c :: 2 <= c <= b.n ==> M[0][c] == 0.0) &&
      M[b.n][b.n - 1] == -b.ea / b.dz && M[b.n][b.n] == b.ea / b.dz + ToeTangent(b, w) &&
      (forall c :: 0 <= c < b.n - 1 ==> M[b.n][c] == 0.0)
  {
    JacobianHeadRow(b, w);
    JacobianToeRow(b, w);
    forall c | 0 <= c < b.n - 1
      ensures JacobianAt(b, w, b.n, c) == 0.0
    {
      JacobianTridiagonal(b, w, b.n, c);
    }
  }

  /** Interior row i of Matrix(b, w), entry by entry. */
  lemma MatrixInteriorRow(b: Bar, w: seq<real>, i: nat)
    requires Fits(b, w) && 1 <= i < b.n
    ensures var M := Matrix(b, w);
      M[i][i - 1] == Stiffness(b) - SideTangent(b, w, i) &&
      M[i][i] == -2.0 * Stiffness(b) + SideTangent(b, w, i) &&
      M[i][i + 1] == Stiffness(b) &&
      (forall c :: 0 <= c <= b.n && (c + 1 < i || i + 1 < c) ==> M[i][c] == 0.0)
  {
    JacobianInteriorRow(b, w, i);
    forall c | 0 <= c <= b.n && (c + 1 < i || i + 1 < c)
      ensures JacobianAt(b, w, i, c) == 0.0
    {
      JacobianTridiagonal(b, w, i, c);
    }
  }

  // --------------------------------------------------------------- assembly

  /** J agrees with the matrix M on the rows below `upto` and is zero on the others. */
  predicate Agrees(J: array2<real>, M: seq<seq<real>>, upto: nat)
    reads J
  {
    |M| == J.Length0 && (forall r :: 0 <= r < |M| ==> |M[r]| == J.Length1) &&
    forall r, c :: 0 <= r < J.Length0 && 0 <= c < J.Length1 ==>
      J[r, c] == (if r < upto then M[r][c] else 0.0)
  }

  /** The Jacobian as assembled so far: rows below `upto` are final. */
  predicate RowsDone(b: Bar, w: seq<real>, J: array2<real>, upto: nat)
    requires Fits(b, w)
    reads J
  {
    Agrees(J, Matrix(b, w), upto)
  }

  /** The residual as assembled so far: entries below `upto` are final. */
  predicate ResidualsDone(b: Bar, w: seq<real>, p: real, res: array<real>, upto: nat)
    requires Fits(b, w) && res.Length == b.n + 1
    reads res
  {
    forall k :: 0 <= k <= b.n ==> res[k] == (if k < upto then ResidualAt(b, w, p, k) else 0.0)
  }

  /** Fills interior row i of J: the structural stencil, then the soil
      tangent added to J[i, i] and subtracted from J[i, i-1]. */
  method FillInteriorRow(b: Bar, w: seq<real>, J: array2<real>, i: nat, dqdw: real)
    requires Fits(b, w) && J.Length0 == b.n + 1 && J.Length1 == b.n + 1
    requires 1 <= i < b.n && dqdw == SideTangent(b, w, i)
    requires RowsDone(b, w, J, i)
    modifies J
    ensures RowsDone(b, w, J, i + 1)
  {
    MatrixInteriorRow(b, w, i);
    AddStencil(J, Matrix(b, w), i, Stiffness(b), dqdw);
  }

  /** The updates of interior row i, still zero: k, -2k, k, then the tangent g
      added on the diagonal and subtracted to its left. */
  method AddStencil(J: array2<real>, ghost M: seq<seq<real>>, i: nat, k: real, g: real)
    requires 1 <= i && i + 1 < J.Length0 && i + 1 < J.Length1
    requires Agrees(J, M, i)
    requires M[i][i - 1] == k - g && M[i][i] == -2.0 * k + g && M[i][i + 1] == k
    requires forall c :: 0 <= c < J.Length1 && (c + 1 < i || i + 1 < c) ==> M[i][c] == 0.0
    modifies J
    ensures Agrees(J, M, i + 1)
  {
    J[i, i - 1] := J[i, i - 1] + k;
    J[i, i] := J[i, i] + -2.0 * k;
    J[i, i + 1] := J[i, i + 1] + k;
    J[i, i] := J[i, i] + g;
    J[i, i - 1] := J[i, i - 1] - g;
    forall r, c | 0 <= r < J.Length0 && 0 <= c < J.Length1
      ensures J[r, c] == (if r < i + 1 then M[r][c] else 0.0)
    {
      if r != i || (c + 1 != i && c != i && c != i + 1) {
        assert J[r, c] == old(J[r, c]);
      }
    }
  }

  /** The secant slope of a curve at slip x where its value is t, as the
      solver computes it. */
  method Slope(c: Curve, x: real, t: real) returns (s: real)
    requires |c.z| == |c.t|
    ensures s == SecantSlope(c, x, t)
  {
    s := 0.0;
    if |c.z| > 1 {
      var ds := SecantWidth(c.z);
      var t2 := InterpClampedM(Ahead(x, ds), Fins(c.z), Fins(c.t));
      s := Secant(t, t2, ds);
    }
  }

  /** Interior node i: its residual and its soil tangent dq/dw. */
  method InteriorNode(b: Bar, w: seq<real>, p: real, i: nat) returns (r: real, dqdw: real)
    requires Fits(b, w) && 1 <= i < b.n
    ensures r == ResidualAt(b, w, p, i) && dqdw == SideTangent(b, w, i)
  {
    var layer := GetLayerForZ(b.profile, b.z[i]);
    var c := match layer
      case None => Curve([0.0], [0.0])
      case Some(l) => TzCurve(l, b.d, b.z[i], b.m);
    assert c == NodeCurve(b, i);
    var slip := Slip(w, i);
    var t := InterpClampedM(slip, Fins(c.z), Fins(c.t));
    r := InteriorResidual(b, w, i, Force(t, b.perimeter));
    var slope := Slope(c, slip, t);
    dqdw := SignedTangent(slope, b.perimeter, w[i] - w[i - 1]);
  }

  /** The toe node: its residual and dQ_toe/dw. */
  method ToeNode(b: Bar, w: seq<real>, p: real) returns (r: real, dQdw: real)
    requires Fits(b, w)
    ensures r == ResidualAt(b, w, p, b.n) && dQdw == ToeTangent(b, w)
  {
    var slipToe := Abs(w[b.n]);
    var q := InterpClampedM(slipToe, Fins(b.tip.z), Fins(b.tip.t));
    r := ToeResidual(b, w, Force(q, b.area));
    var slope := Slope(b.tip, slipToe, q);
    dQdw := SignedTangent(slope, b.area, w[b.n]);
  }

  /** Builds residual and J for the current settlements, node by node. */
  method AssembleSystem(b: Bar, w: seq<real>, p: real) returns (J: array2<real>, res: array<real>)
    requires Fits(b, w)
    ensures fresh(J) && fresh(res)
    ensures J.Length0 == b.n + 1 && J.Length1 == b.n + 1 && res.Length == b.n + 1
    ensures RowsDone(b, w, J, b.n + 1) && ResidualsDone(b, w, p, res, b.n + 1)
  {
    var n := b.n;
    res := new real[n + 1](i => 0.0);
    J := new real[n + 1, n + 1]((i, j) => 0.0);
    res[0] := HeadResidual(b, w, p);
    FillHeadRow(b, w, J);
    FillInterior(b, w, p, J, res);
    FillToe(b, w, p, J, res);
  }

  /** The toe node's residual entry and Jacobian row. */
  method FillToe(b: Bar, w: seq<real>, p: real, J: array2<real>, res: array<real>)
    requires Fits(b, w) && J.Length0 == b.n + 1 && J.Length1 == b.n + 1 && res.Length == b.n + 1
    requires RowsDone(b, w, J, b.n) && ResidualsDone(b, w, p, res, b.n)
    modifies J, res
    ensures RowsDone(b, w, J, b.n + 1) && ResidualsDone(b, w, p, res, b.n + 1)
  {
    var rToe, dQdw := ToeNode(b, w, p);
    res[b.n] := rToe;
    FillToeRow(b, w, J, dQdw);
  }

  /** The loop over interior nodes 1 .. n-1. */
  method FillInterior(b: Bar, w: seq<real>, p: real, J: array2<real>, res: array<real>)
    requires Fits(b, w) && J.Length0 == b.n + 1 && J.Length1 == b.n + 1 && res.Length == b.n + 1
    requires RowsDone(b, w, J, 1)
    requires ResidualsDone(b, w, p, res, 1)
    modifies J, res
    ensures RowsDone(b, w, J, b.n) && ResidualsDone(b, w, p, res, b.n)
  {
    for i := 1 to b.n
      invariant RowsDone(b, w, J, i)
      invariant ResidualsDone(b, w, p, res, i)
    {
      var r, dqdw := InteriorNode(b, w, p, i);
      SetResidual(b, w, p, res, i, r);
      FillInteriorRow(b, w, J, i, dqdw);
    }
  }

  /** Stores the residual of node i, the next one to fill. */
  method SetResidual(b: Bar, w: seq<real>, p: real, res: array<real>, i: nat, r: real)
    requires Fits(b, w) && res.Length == b.n + 1 && i <= b.n
    requires ResidualsDone(b, w, p, res, i) && r == ResidualAt(b, w, p, i)
    modifies res
    ensures ResidualsDone(b, w, p, res, i + 1)
  {
    res[i] := r;
  }

  /** Fills the head row: J[0, 0] = -EA/dz, J[0, 1] = EA/dz. */
  method FillHeadRow(b: Bar, w: seq<real>, J: array2<real>)
    requires Fits(b, w) && J.Length0 == b.n + 1 && J.Length1 == b.n + 1
    requires RowsDone(b, w, J, 0)
    modifies J
    ensures RowsDone(b, w, J, 1)
  {
    MatrixEndRows(b, w);
    ghost var M := Matrix(b, w);
    J[0, 0] := -b.ea / b.dz;
    J[0, 1] := b.ea / b.dz;
    forall r, c | 0 <= r < b.n + 1 && 0 <= c < b.n + 1
      ensures J[r, c] == (if r < 1 then M[r][c] else 0.0)
    {
      if r != 0 || c > 1 {
        assert J[r, c] == old(J[r, c]);
      }
    }
  }

  /** Fills the toe row: J[n, n-1] = -EA/dz, J[n, n] = EA/dz, then adds dQ_toe/dw. */
  method FillToeRow(b: Bar, w: seq<real>, J: array2<real>, dQdw: real)
    requires Fits(b, w) && J.Length0 == b.n + 1 && J.Length1 == b.n + 1
    requires dQdw == ToeTangent(b, w)
    requires RowsDone(b, w, J, b.n)
    modifies J
    ensures RowsDone(b, w, J, b.n + 1)
  {
    MatrixEndRows(b, w);
    ghost var M := Matrix(b, w);
    var n := b.n;
    J[n, n - 1] := -b.ea / b.dz;
    J[n, n] := b.ea / b.dz;
    J[n, n] := J[n, n] + dQdw;
    forall r, c | 0 <= r < n + 1 && 0 <= c < n + 1
      ensures J[r, c] == (if r < n + 1 then M[r][c] else 0.0)
    {
      if r != n || (c != n - 1 && c != n) {
        assert J[r, c] == old(J[r, c]);
      }
    }
  }
}

module AxialSolver {
  import opened Numerics
  import opened Curves
  import opened LayerLookup
  import opened Interpolation
  import opened Axial

  // --------------------------------------------------------------- step cap

  /** x * c, kept as a named term so that products stay out of the solver's
      arithmetic until a proof asks for them. */
  function Times(x: real, c: real): real { x * c }

  /** The scale factor cap / max_comp. */
  function CapRatio(top: real): real
    requires top != 0.0
  {
    MaxStep / top
  }

  /** [x * c for x in s], numpy's in-place dw *= c. */
  function ScaledBy(s: seq<real>, c: real): (r: seq<real>)
    ensures |r| == |s| && forall i :: 0 <= i < |s| ==> r[i] == Times(s[i], c)
  {
    seq(|s|, i requires 0 <= i < |s| => Times(s[i], c))
  }

  /** The stability guard on finite components: scale the whole step down
      when its largest magnitude exceeds the cap. */
  function CapValues(s: seq<real>): (r: seq<real>)
    requires |s| > 0
    ensures |r| == |s|
    ensures MaxAbs(s) <= MaxStep ==> r == s
  {
    if MaxAbs(s) > MaxStep then ScaledBy(s, CapRatio(MaxAbs(s))) else s
  }

  /** The Newton step after the guard: a step with a non-finite component
      (whose max |dw| is then not finite) is left as it is. */
  function CapStep(dw: seq<Float>): (r: seq<Float>)
    requires |dw| > 0
    ensures |r| == |dw|
    ensures !AllFinite(dw) ==> r == dw
    ensures AllFinite(dw) ==> AllFinite(r)
  {
    if AllFinite(dw) then Fins(CapValues(Values(dw))) else dw
  }

  lemma CapFactor(top: real)
    requires top > MaxStep
    ensures 0.0 < CapRatio(top) && Times(top, CapRatio(top)) == MaxStep
  {
  }

  lemma ScaleOne(x: real, top: real, c: real)
    requires Abs(x) <= top && 0.0 < c && Times(top, c) == MaxStep
    ensures Abs(Times(x, c)) <= MaxStep
    ensures Abs(x) == top ==> Abs(Times(x, c)) == MaxStep
    ensures (Times(x, c) > 0.0 <==> x > 0.0) && (Times(x, c) < 0.0 <==> x < 0.0)
  {
    assert Times(x, c) == x * c && Times(top, c) == top * c;
    var g := top - Abs(x);
    assert g >= 0.0;
    assert g * c >= 0.0;
    assert top * c == Abs(x) * c + g * c;
    if x > 0.0 {
      assert x * c > 0.0;
      assert Abs(x * c) == Abs(x) * c;
    } else if x < 0.0 {
      assert (-x) * c > 0.0;
      assert Abs(x * c) == Abs(x) * c;
    } else {
      assert x * c == 0.0;
    }
  }

  /** After the guard every component of a finite step is at most 0.5 mm in
      magnitude. */
  lemma CapBound(s: seq<real>)
    requires |s| > 0
    ensures forall i :: 0 <= i < |s| ==> Abs(CapValues(s)[i]) <= MaxStep
  {
    var top := MaxAbs(s);
    if top > MaxStep {
      var c := CapRatio(top);
      CapFactor(top);
      forall i | 0 <= i < |s| ensures Abs(CapValues(s)[i]) <= MaxStep {
        ScaleOne(s[i], top, c);
      }
    }
  }

  /** The guard keeps the sign of every component. */
  lemma CapSign(s: seq<real>)
    requires |s| > 0
    ensures forall i :: 0 <= i < |s| ==>
              (CapValues(s)[i] > 0.0 <==> s[i] > 0.0) && (CapValues(s)[i] < 0.0 <==> s[i] < 0.0)
  {
    var top := MaxAbs(s);
    if top > MaxStep {
      var c := CapRatio(top);
      CapFactor(top);
      forall i | 0 <= i < |s|
        ensures (CapValues(s)[i] > 0.0 <==> s[i] > 0.0) && (CapValues(s)[i] < 0.0 <==> s[i] < 0.0)
      {
        ScaleOne(s[i], top, c);
      }
    }
  }

  /** A step over the cap is scaled so that its largest magnitude is exactly
      the cap; the guard scales every component by the same factor. */
  lemma CapTop(s: seq<real>)
    requires |s| > 0 && MaxAbs(s) > MaxStep
    ensures MaxAbs(CapValues(s)) == MaxStep
    ensures forall i :: 0 <= i < |s| ==> CapValues(s)[i] == Times(s[i], CapRatio(MaxAbs(s)))
  {
    var top := MaxAbs(s);
    var c := CapRatio(top);
    CapFactor(top);
    CapBound(s);
    MaxAbsAttained(s);
    var j :| 0 <= j < |s| && Abs(s[j]) == top;
    ScaleOne(s[j], top, c);
    MaxAbsAttained(CapValues(s));
  }

  /** The stability guard in place: max_comp = max |dw|; if it is finite and
      above the cap, dw *= cap / max_comp. */
  method CapInPlace(dw: array<Float>)
    requires dw.Length > 0
    modifies dw
    ensures dw[..] == CapStep(old(dw[..]))
  {
    if !AllFinite(dw[..]) {
      return;
    }
    ghost var s := Values(dw[..]);
    var top := MaxAbs(Values(dw[..]));
    if top > MaxStep {
      var c := CapRatio(top);
      forall k | 0 <= k < dw.Length {
        dw[k] := Fin(Times(dw[k].v, c));
      }
      assert dw[..] == Fins(ScaledBy(s, c));
    } else {
      assert dw[..] == Fins(s);
    }
  }

  // ------------------------------------------------------------ Newton step

  /** The linear solve J dw = rhs (np.linalg.solve, or the regularised
      least-squares fallback when J is singular), as an oracle giving
      component k of its answer. */
  type Solver = (seq<seq<real>>, seq<real>, nat) -> Float

  /** The right-hand side -residual. */
  function Rhs(b: Bar, w: seq<real>, p: real): (r: seq<real>)
    requires Fits(b, w)
    ensures |r| == b.n + 1
  {
    seq(b.n + 1, k requires 0 <= k <= b.n => -ResidualAt(b, w, p, k))
  }

  /** The increment the solver returns, before the stability guard. */
  function RawStep(b: Bar, w: seq<real>, p: real, solve: Solver): (dw: seq<Float>)
    requires Fits(b, w)
    ensures |dw| == b.n + 1
  {
    seq(b.n + 1, k requires 0 <= k => solve(Matrix(b, w), Rhs(b, w, p), k))
  }

  /** The increment after the stability guard. */
  function Step(b: Bar, w: seq<real>, p: real, solve: Solver): (dw: seq<Float>)
    requires Fits(b, w)
    ensures |dw| == b.n + 1
  {
    CapStep(RawStep(b, w, p, solve))
  }

  /** A finite guarded increment moves no node by more than 0.5 mm. */
  lemma StepBounded(b: Bar, w: seq<real>, p: real, solve: Solver)
    requires Fits(b, w) && AllFinite(Step(b, w, p, solve))
    ensures forall i :: 0 <= i <= b.n ==> Abs(Values(Step(b, w, p, solve))[i]) <= MaxStep
  {
    var raw := RawStep(b, w, p, solve);
    assert AllFinite(raw);
    var s := Values(raw);
    CapBound(s);
    assert Values(Step(b, w, p, solve)) == CapValues(s);
  }

  /** w + dw. */
  function Add(w: seq<real>, d: seq<real>): (r: seq<real>)
    requires |w| == |d|
    ensures |r| == |w| && forall i :: 0 <= i < |w| ==> r[i] - w[i] == d[i]
  {
    seq(|w|, i requires 0 <= i < |w| => w[i] + d[i])
  }

  /** The Newton iteration at head load p with `fuel` iterations left: stop
      after an increment whose largest component is below the tolerance.
      An increment with a non-finite component poisons the settlements
      (None). */
  function Newton(b: Bar, w: seq<real>, p: real, solve: Solver, fuel: nat): (r: Option<seq<real>>)
    requires Fits(b, w)
    ensures r.Some? ==> Fits(b, r.value)
    ensures fuel == 0 ==> r == Some(w)
    decreases fuel
  {
    if fuel == 0 then Some(w)
    else
      var dw := Step(b, w, p, solve);
      if !AllFinite(dw) then None
      else
        var next := Add(w, Values(dw));
        if MaxAbs(Values(dw)) < StepTolerance then Some(next)
        else Newton(b, next, p, solve, fuel - 1)
  }

  /** r, when present, moves no entry of w by more than k steps of 0.5 mm. */
  predicate WithinSteps(w: seq<real>, r: Option<seq<real>>, k: nat) {
    r.Some? ==> |r.value| == |w| && forall i :: 0 <= i < |w| ==> Abs(r.value[i] - w[i]) <= (k as real) * MaxStep
  }

  /** With `fuel` iterations left, Newton moves no node by more than
      fuel * 0.5 mm. */
  lemma {:induction false} NewtonBounded(b: Bar, w: seq<real>, p: real, solve: Solver, fuel: nat)
    requires Fits(b, w)
    ensures WithinSteps(w, Newton(b, w, p, solve, fuel), fuel)
    decreases fuel
  {
    if fuel > 0 {
      var dw := Step(b, w, p, solve);
      if AllFinite(dw) {
        StepBounded(b, w, p, solve);
        var next := Add(w, Values(dw));
        AddOneStep(w, Values(dw));
        if MaxAbs(Values(dw)) >= StepTolerance {
          NewtonBounded(b, next, p, solve, fuel - 1);
          WithinOneMore(w, next, Newton(b, next, p, solve, fuel - 1), fuel - 1);
        } else {
          WithinOneMore(w, next, Some(next), 0);
        }
      }
    }
  }

  /** next moves no entry of w by more than one step of 0.5 mm. */
  predicate OneStep(w: seq<real>, next: seq<real>) {
    |next| == |w| && forall i :: 0 <= i < |w| ==> Abs(next[i] - w[i]) <= MaxStep
  }

  lemma AddOneStep(w: seq<real>, d: seq<real>)
    requires |w| == |d| && forall i :: 0 <= i < |d| ==> Abs(d[i]) <= MaxStep
    ensures OneStep(w, Add(w, d))
  {
  }

  /** A first move of at most one step followed by at most k steps stays within k + 1 steps. */
  lemma WithinOneMore(w: seq<real>, next: seq<real>, r: Option<seq<real>>, k: nat)
    requires OneStep(w, next)
    requires WithinSteps(next, r, k)
    ensures WithinSteps(w, r, k + 1)
  {
    if r.Some? {
      forall i | 0 <= i < |w|
        ensures Abs(r.value[i] - w[i]) <= ((k + 1) as real) * MaxStep
      {
        Within(r.value[i], next[i], w[i], k);
      }
    }
  }

  /** Two moves, of at most k and of at most one step, stay within k + 1 steps. */
  lemma Within(x: real, y: real, z: real, k: nat)
    requires Abs(x - y) <= (k as real) * MaxStep && Abs(y - z) <= MaxStep
    ensures Abs(x - z) <= ((k + 1) as real) * MaxStep
  {
    assert ((k + 1) as real) * MaxStep == (k as real) * MaxStep + MaxStep;
  }

  /** w += dw, one vector operation. */
  method AddInPlace(w: array<real>, dw: array<Float>)
    requires w.Length == dw.Length && AllFinite(dw[..])
    modifies w
    ensures w[..] == Add(old(w[..]), Values(dw[..]))
  {
    forall k | 0 <= k < w.Length {
      w[k] := w[k] + dw[k].v;
    }
  }

  /** The current Jacobian, copied out of the assembled array. */
  method Snapshot(b: Bar, w: seq<real>, J: array2<real>) returns (m: seq<seq<real>>)
    requires Fits(b, w) && J.Length0 == b.n + 1 && J.Length1 == b.n + 1
    requires RowsDone(b, w, J, b.n + 1)
    ensures m == Matrix(b, w)
  {
    m := seq(b.n + 1, i requires 0 <= i <= b.n reads J =>
           seq(b.n + 1, j requires 0 <= j <= b.n reads J => J[i, j]));
    forall i | 0 <= i <= b.n
      ensures m[i] == Matrix(b, w)[i]
    {
    }
  }

  /** The right-hand side -res, copied out of the assembled residual. */
  method Negated(b: Bar, w: seq<real>, p: real, res: array<real>) returns (rhs: seq<real>)
    requires Fits(b, w) && res.Length == b.n + 1 && ResidualsDone(b, w, p, res, b.n + 1)
    ensures rhs == Rhs(b, w, p)
  {
    rhs := seq(b.n + 1, k requires 0 <= k <= b.n reads res => -res[k]);
  }

  /** The guarded increment at w: assemble, solve, cap. */
  method Increment(b: Bar, w: seq<real>, p: real, solve: Solver) returns (dw: array<Float>)
    requires Fits(b, w)
    ensures fresh(dw) && dw[..] == Step(b, w, p, solve)
  {
    var J, res := AssembleSystem(b, w, p);
    var m := Snapshot(b, w, J);
    var rhs := Negated(b, w, p, res);
    dw := new Float[b.n + 1](k requires 0 <= k => solve(m, rhs, k));
    assert dw[..] == RawStep(b, w, p, solve);
    CapInPlace(dw);
  }

  /** One Newton iteration: the guarded increment and, when it is finite,
      w += dw; `small` says whether max |dw| < 1e-6. */
  method Iterate(b: Bar, w: array<real>, p: real, solve: Solver) returns (finite: bool, small: bool)
    requires Fits(b, w[..])
    modifies w
    ensures finite <==> AllFinite(Step(b, old(w[..]), p, solve))
    ensures !finite ==> w[..] == old(w[..])
    ensures finite ==> w[..] == Add(old(w[..]), Values(Step(b, old(w[..]), p, solve)))
    ensures finite ==> (small <==> MaxAbs(Values(Step(b, old(w[..]), p, solve))) < StepTolerance)
  {
    var dw := Increment(b, w[..], p, solve);
    finite := AllFinite(dw[..]);
    small := false;
    if finite {
      AddInPlace(w, dw);
      small := MaxAbs(Values(dw[..])) < StepTolerance;
    }
  }

  /** One unfolding of the Newton iteration. */
  lemma NewtonUnfold(b: Bar, w: seq<real>, p: real, solve: Solver, fuel: nat)
    requires Fits(b, w) && fuel > 0
    ensures var dw := Step(b, w, p, solve);
            Newton(b, w, p, solve, fuel) ==
              if !AllFinite(dw) then None
              else if MaxAbs(Values(dw)) < StepTolerance then Some(Add(w, Values(dw)))
              else Newton(b, Add(w, Values(dw)), p, solve, fuel - 1)
  {
  }

  /** The Newton loop of one load level, updating w in place, at most 80
      iterations; it answers false when an increment was not finite. */
  method NewtonSolve(b: Bar, w: array<real>, p: real, solve: Solver) returns (ok: bool)
    requires Fits(b, w[..])
    modifies w
    ensures ok <==> Newton(b, old(w[..]), p, solve, MaxIterations).Some?
    ensures ok ==> w[..] == Newton(b, old(w[..]), p, solve, MaxIterations).value
  {
    ghost var w0 := w[..];
    for it := 0 to MaxIterations
      invariant Fits(b, w[..])
      invariant Newton(b, w0, p, solve, MaxIterations) == Newton(b, w[..], p, solve, MaxIterations - it)
    {
      ghost var before := w[..];
      NewtonUnfold(b, before, p, solve, MaxIterations - it);
      var finite, small := Iterate(b, w, p, solve);
      if !finite {
        return false;
      }
      if small {
        return true;
      }
    }
    return true;
  }
}
