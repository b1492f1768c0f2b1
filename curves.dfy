/** Soil-reaction backbone curves built from one soil layer: shaft friction
    against slip (t-z), tip resistance against slip (q-z) and lateral reaction
    against deflection (p-y). The axial control-point tables have the t-z and
    Q-z shapes of API RP 2A-WSD sections 6.7.2 and 6.7.3 as carried into
    API RP 2GEO; the clay p-y curve is Matlock-style (API RP 2A-WSD section
    6.8.3), the sand p-y curve Reese-style. */
module Curves {
  import opened Numerics

  /** The layer's "type" string: "clay", "sand" or anything else. */
  datatype SoilKind = Clay | Sand | Other

  /** One soil layer: depth interval (m), kind, unit weight gamma (kN/m3),
      undrained shear strength su (kPa, clay) and friction angle (deg, sand). */
  datatype Layer = Layer(fromM: real, toM: real, kind: SoilKind, gamma: real, su: real, phiDeg: real)

  /** A backbone curve as two parallel lists: displacements and reactions. */
  datatype Curve = Curve(z: seq<real>, t: seq<real>)

  // ---------------------------------------------------------------- tables

  /** Clay t-z: displacement over diameter, and friction over its peak. */
  const ClayTzZOverD: seq<real> := [0.0, 0.0016, 0.0031, 0.0057, 0.0080, 0.0100, 0.0200, 0.1]
  const ClayResidual: real := 0.8
  const ClayTzRatio: seq<real> := [0.0, 0.3, 0.5, 0.75, 0.9, 1.0, ClayResidual, ClayResidual]

  /** Sand t-z: absolute displacement (m), and friction over its peak. */
  const SandTzZ: seq<real> := [0.0, 0.00025, 0.001, 0.0025, 0.01, 0.025]
  const SandTzRatio: seq<real> := [0.0, 0.10, 0.30, 0.50, 0.80, 1.00]

  /** q-z (clay and sand): displacement over diameter, and resistance over its peak. */
  const QzZOverD: seq<real> := [0.0, 0.0005, 0.002, 0.005, 0.01, 0.02, 0.05, 0.10]
  const QzRatio: seq<real> := [0.0, 0.10, 0.30, 0.50, 0.70, 0.90, 1.00, 1.00]

  /** The cap on the sand tip resistance, in kPa. */
  const TipCapKPa: real := 50000.0

  /** Number of points of a p-y curve. */
  const PyPoints: nat := 100

  predicate NonDecreasing(s: seq<real>) {
    forall i, j :: 0 <= i <= j < |s| ==> s[i] <= s[j]
  }

  /** A list comprehension [v * c for v in s]. */
  function Scaled(s: seq<real>, c: real): (r: seq<real>)
    ensures |r| == |s| && forall i :: 0 <= i < |s| ==> r[i] == s[i] * c
  {
    seq(|s|, i requires 0 <= i < |s| => s[i] * c)
  }

  // ------------------------------------------------------------------- t-z

  /** The uncapped clay adhesion factor for strength ratio psi = su / sigma_v. */
  function RawAdhesion(psi: real, m: MathLib): real {
    if psi <= 1.0 then 0.5 * m.pow(psi, -0.5) else 0.5 * m.pow(psi, -0.25)
  }

  /** Clay adhesion factor: the raw factor capped at 1.0, or 1.0 outright when
      the vertical stress or the strength is not positive. */
  function ClayAdhesion(sigmaV: real, su: real, m: MathLib): (alpha: real)
    ensures alpha <= 1.0
    ensures sigmaV <= 0.0 || su <= 0.0 ==> alpha == 1.0
    ensures sigmaV > 0.0 && su > 0.0 ==>
              alpha <= RawAdhesion(su / sigmaV, m) && (alpha == 1.0 || alpha == RawAdhesion(su / sigmaV, m))
  {
    if sigmaV > 0.0 && su > 0.0 then Min(RawAdhesion(su / sigmaV, m), 1.0) else 1.0
  }

  /** Peak shaft friction t_max (kPa) of a clay layer at a depth. */
  function ClayShaftPeak(layer: Layer, depth: real, m: MathLib): real {
    ClayAdhesion(layer.gamma * depth, layer.su, m) * layer.su
  }

  /** Peak shaft friction t_max (kPa) of a sand layer: K * sigma_v * tan(phi - 5 deg), K = 0.8. */
  function SandShaftPeak(layer: Layer, depth: real, m: MathLib): real {
    0.8 * (layer.gamma * depth) * m.tan(m.radians(layer.phiDeg - 5.0))
  }

  /** The clay t-z curve: eight points, displacements scaled by the diameter,
      friction by t_max, ending on a residual plateau at 0.8 t_max. */
  function ClayTzCurve(layer: Layer, d: real, depth: real, m: MathLib): (c: Curve)
    ensures |c.z| == 8 && |c.t| == 8
    ensures c.z[0] == 0.0 && c.t[0] == 0.0
    ensures c.z[5] == 0.01 * d && c.t[5] == ClayShaftPeak(layer, depth, m)
    ensures c.t[6] == c.t[7] == ClayResidual * ClayShaftPeak(layer, depth, m)
    ensures forall i :: 0 <= i < 8 ==>
              c.z[i] == ClayTzZOverD[i] * d && c.t[i] == ClayTzRatio[i] * ClayShaftPeak(layer, depth, m)
  {
    ClayTzPoints(d, ClayShaftPeak(layer, depth, m))
  }

  /** The clay t-z points for a diameter and a peak friction. */
  function ClayTzPoints(d: real, tMax: real): (c: Curve)
    ensures |c.z| == 8 && |c.t| == 8
    ensures c.z[0] == 0.0 && c.t[0] == 0.0
    ensures c.z[5] == 0.01 * d && c.t[5] == tMax
    ensures c.t[6] == c.t[7] == ClayResidual * tMax
    ensures forall i :: 0 <= i < 8 ==> c.z[i] == ClayTzZOverD[i] * d && c.t[i] == ClayTzRatio[i] * tMax
  {
    var z := Scaled(ClayTzZOverD, d);
    var t := Scaled(ClayTzRatio, tMax);
    assert z[0] == 0.0 * d && z[5] == 0.01 * d;
    assert t[0] == 0.0 * tMax && t[5] == 1.0 * tMax;
    assert t[6] == ClayResidual * tMax && t[7] == ClayResidual * tMax;
    Curve(z, t)
  }

  /** The sand t-z curve: six points at fixed displacements, friction scaled
      by t_max and reaching it at the last point. */
  function SandTzCurve(layer: Layer, depth: real, m: MathLib): (c: Curve)
    ensures c.z == SandTzZ && |c.t| == 6
    ensures forall i :: 0 <= i < 6 ==> c.t[i] == SandTzRatio[i] * SandShaftPeak(layer, depth, m)
    ensures c.t[5] == SandShaftPeak(layer, depth, m)
  {
    var t := Scaled(SandTzRatio, SandShaftPeak(layer, depth, m));
    assert t[5] == SandTzRatio[5] * SandShaftPeak(layer, depth, m);
    Curve(SandTzZ, t)
  }

  /** get_tz_curve: the shaft t-z curve of a layer at a depth; a layer of any
      other kind gives two empty lists. */
  function TzCurve(layer: Layer, d: real, depth: real, m: MathLib): (c: Curve)
    ensures |c.z| == |c.t|
    ensures layer.kind == Clay ==> c == ClayTzCurve(layer, d, depth, m)
    ensures layer.kind == Sand ==> c == SandTzCurve(layer, depth, m)
    ensures layer.kind == Other ==> c.z == [] && c.t == []
  {
    match layer.kind
    case Clay => ClayTzCurve(layer, d, depth, m)
    case Sand => SandTzCurve(layer, depth, m)
    case Other => Curve([], [])
  }

  /** The sand t-z curve does not depend on the diameter, and with a
      non-negative peak its friction never decreases with slip. */
  lemma SandTzShape(layer: Layer, d1: real, d2: real, depth: real, m: MathLib)
    requires layer.kind == Sand
    ensures TzCurve(layer, d1, depth, m).z == TzCurve(layer, d2, depth, m).z
    ensures NonDecreasing(SandTzRatio)
    ensures SandShaftPeak(layer, depth, m) >= 0.0 ==> NonDecreasing(TzCurve(layer, d1, depth, m).t)
  {
    var c := TzCurve(layer, d1, depth, m);
    var tMax := SandShaftPeak(layer, depth, m);
    assert NonDecreasing(SandTzRatio) by {
      forall i, j | 0 <= i <= j < 6 ensures SandTzRatio[i] <= SandTzRatio[j] {
        assert SandTzRatio == [0.0, 0.10, 0.30, 0.50, 0.80, 1.00];
      }
    }
    if tMax >= 0.0 {
      forall i, j | 0 <= i <= j < 6 ensures c.t[i] <= c.t[j] {
        assert SandTzRatio[i] <= SandTzRatio[j];
        assert SandTzRatio[i] * tMax <= SandTzRatio[j] * tMax;
      }
    }
  }

  // ------------------------------------------------------------------- q-z

  /** Peak tip resistance q_max (kPa): 9 su in clay; in sand the bearing
      factor Nq times sigma_v, capped at 50000. Any other layer type leaves
      q_max unbound, and the dividing 1.75 + phi can be zero. */
  function TipPeak(layer: Layer, tipDepth: real, m: MathLib): (r: Result<real>)
    ensures layer.kind == Clay ==> r == Ok(9.0 * layer.su)
    ensures layer.kind == Sand ==> (r.Err? <==> 1.75 + m.radians(layer.phiDeg) == 0.0)
    ensures layer.kind == Sand && r.Err? ==> r.error == ZeroDivisionError
    ensures layer.kind == Sand && r.Ok? ==>
              r.value <= TipCapKPa &&
              r.value <= SandBearing(layer, m) * (layer.gamma * tipDepth) &&
              (r.value == TipCapKPa || r.value == SandBearing(layer, m) * (layer.gamma * tipDepth))
    ensures layer.kind == Other ==> r == Err(UnboundLocalError)
  {
    match layer.kind
    case Clay => Ok(9.0 * layer.su)
    case Sand =>
      if 1.75 + m.radians(layer.phiDeg) == 0.0 then Err(ZeroDivisionError)
      else Ok(Min(SandBearing(layer, m) * (layer.gamma * tipDepth), TipCapKPa))
    case Other => Err(UnboundLocalError)
  }

  /** The sand bearing factor Nq = exp(pi (phi - 0.75) / (1.75 + phi)), phi in radians. */
  function SandBearing(layer: Layer, m: MathLib): real
    requires 1.75 + m.radians(layer.phiDeg) != 0.0
  {
    var phiRad := m.radians(layer.phiDeg);
    m.exp(PI * (phiRad - 0.75) / (1.75 + phiRad))
  }

  /** get_qz_curve: the tip q-z curve; it fails exactly when q_max does. */
  function QzCurve(layer: Layer, d: real, tipDepth: real, m: MathLib): (r: Result<Curve>)
    ensures r.Err? <==> TipPeak(layer, tipDepth, m).Err?
    ensures r.Err? ==> r.error == TipPeak(layer, tipDepth, m).error
    ensures r.Ok? ==>
              var qMax := TipPeak(layer, tipDepth, m).value;
              |r.value.z| == 8 && |r.value.t| == 8 &&
              (forall i :: 0 <= i < 8 ==> r.value.z[i] == QzZOverD[i] * d) &&
              (forall i :: 0 <= i < 8 ==> r.value.t[i] == QzRatio[i] * qMax) &&
              r.value.t[6] == r.value.t[7] == qMax
  {
    match TipPeak(layer, tipDepth, m)
    case Err(e) => Err(e)
    case Ok(qMax) => Ok(QzPoints(d, qMax))
  }

  /** The eight q-z points for diameter d and peak qMax. */
  function QzPoints(d: real, qMax: real): (c: Curve)
    ensures |c.z| == 8 && |c.t| == 8
    ensures forall i :: 0 <= i < 8 ==> c.z[i] == QzZOverD[i] * d
    ensures forall i :: 0 <= i < 8 ==> c.t[i] == QzRatio[i] * qMax
    ensures c.t[6] == c.t[7] == qMax
  {
    var t := Scaled(QzRatio, qMax);
    assert t[6] == 1.0 * qMax && t[7] == 1.0 * qMax;
    Curve(Scaled(QzZOverD, d), t)
  }

  /** The q-z shape rises monotonically to 1.0, so with a non-negative peak the
      curve's resistance never decreases with slip and never exceeds q_max. */
  lemma QzShape(layer: Layer, d: real, tipDepth: real, m: MathLib)
    requires QzCurve(layer, d, tipDepth, m).Ok?
    requires TipPeak(layer, tipDepth, m).value >= 0.0
    ensures NonDecreasing(QzCurve(layer, d, tipDepth, m).value.t)
    ensures forall i :: 0 <= i < 8 ==>
              QzCurve(layer, d, tipDepth, m).value.t[i] <= TipPeak(layer, tipDepth, m).value
  {
    var qMax := TipPeak(layer, tipDepth, m).value;
    assert QzCurve(layer, d, tipDepth, m).value == QzPoints(d, qMax);
    QzPointsShape(d, qMax);
  }

  lemma QzPointsShape(d: real, qMax: real)
    requires qMax >= 0.0
    ensures NonDecreasing(QzPoints(d, qMax).t)
    ensures forall i :: 0 <= i < 8 ==> QzPoints(d, qMax).t[i] <= qMax
  {
    var q := QzPoints(d, qMax).t;
    forall i, j | 0 <= i <= j < 8 ensures q[i] <= q[j] && q[j] <= qMax {
      assert QzRatio == [0.0, 0.10, 0.30, 0.50, 0.70, 0.90, 1.00, 1.00];
      assert QzRatio[i] <= QzRatio[j] <= 1.0;
      assert QzRatio[i] * qMax <= QzRatio[j] * qMax <= 1.0 * qMax;
    }
  }

  // ------------------------------------------------------------------- p-y

  /** The p-y deflections: 100 evenly spaced values from 0 to 0.05 D. */
  function PyDeflections(d: real): (y: seq<real>)
    ensures |y| == PyPoints && y[0] == 0.0 && y[PyPoints - 1] == 0.05 * d
    ensures forall i :: 0 <= i < PyPoints - 1 ==> y[i + 1] - y[i] == 0.05 * d / 99.0
  {
    Linspace(0.0, 0.05 * d, PyPoints)
  }

  /** Clay strength used by the p-y curve: a non-positive su is replaced by 1.0. */
  function PyClaySu(su: real): (s: real)
    ensures s > 0.0
    ensures su > 0.0 ==> s == su
    ensures su <= 0.0 ==> s == 1.0
  {
    if su <= 0.0 then 1.0 else su
  }

  /** epsilon50: 0.02 for soft clay (su below 24 kPa), else 0.005. */
  function Epsilon50(su: real): (e: real)
    ensures su < 24.0 <==> e == 0.02
    ensures su >= 24.0 <==> e == 0.005
  {
    if su < 24.0 then 0.02 else 0.005
  }

  /** Critical deflection y_c = 2.5 epsilon50 D. */
  function ClayCriticalDeflection(layer: Layer, d: real): real {
    2.5 * Epsilon50(PyClaySu(layer.su)) * d
  }

  /** Ultimate clay line load Pu = (3 + J + gamma z / su) su D with J = 0.5. */
  function ClayUltimate(layer: Layer, d: real, depth: real): (pu: real)
    ensures d > 0.0 && layer.gamma * depth >= 0.0 ==> pu > 0.0
  {
    var su := PyClaySu(layer.su);
    var r := layer.gamma * depth / su;
    assert layer.gamma * depth >= 0.0 ==> r >= 0.0;
    (3.0 + 0.5 + r) * su * d
  }

  /** One point of the clay p-y curve: the cubic-root branch up to 8 y_c, the
      plateau Pu beyond. NumPy divides y by y_c; with D = 0 both vanish and the
      point is NaN. */
  function ClayReaction(layer: Layer, d: real, depth: real, y: real, m: MathLib): Float
  {
    var yc := ClayCriticalDeflection(layer, d);
    var pu := ClayUltimate(layer, d, depth);
    if y <= 8.0 * yc then
      if yc == 0.0 then NaN else Fin(0.5 * pu * m.pow(y / yc, 1.0 / 3.0))
    else Fin(pu)
  }

  /** Beyond eight critical deflections the clay reaction is the plateau Pu. */
  lemma ClayPlateau(layer: Layer, d: real, depth: real, y: real, m: MathLib)
    requires y > 8.0 * ClayCriticalDeflection(layer, d)
    ensures ClayReaction(layer, d, depth, y, m) == Fin(ClayUltimate(layer, d, depth))
  {
  }

  /** Effective unit weight: buoyant (gamma - 9.81) only when gamma exceeds 9.81. */
  function EffectiveUnitWeight(gamma: real): (g: real)
    ensures gamma > 9.81 <==> g != gamma
    ensures g <= gamma
    ensures gamma > 0.0 ==> g > 0.0
    ensures gamma > 9.81 ==> g == gamma - 9.81
  {
    if gamma > 9.81 then gamma - 9.81 else gamma
  }

  /** The sand earth-pressure coefficients of the p-y curve. */
  datatype SandCoefficients = SandCoefficients(kp: real, ka: real, c1: real, c2: real, c3: real)

  /** Passive coefficient k_p, parenthesised as written: 1 + sin/(1 - sin)
      rather than (1 + sin)/(1 - sin). A zero divisor raises ZeroDivisionError. */
  function PassiveCoefficient(phi: real, m: MathLib): (r: Result<real>)
    ensures r.Err? <==> m.sin(phi) == 1.0
    ensures r.Err? ==> r.error == ZeroDivisionError
    ensures r.Ok? ==> (r.value - 1.0) * (1.0 - m.sin(phi)) == m.sin(phi)
  {
    var s := m.sin(phi);
    if 1.0 - s == 0.0 then Err(ZeroDivisionError) else Ok(1.0 + s / (1.0 - s))
  }

  /** k_p, k_a = 1 / k_p and C1, C2, C3, raising on a zero divisor
      (ZeroDivisionError) or a negative square-root argument (ValueError). */
  function SandCoefficientsOf(phiDeg: real, m: MathLib): (r: Result<SandCoefficients>)
    ensures r.Ok? ==> PassiveCoefficient(m.radians(phiDeg), m) == Ok(r.value.kp)
    ensures r.Ok? ==> r.value.kp > 0.0 && r.value.ka * r.value.kp == 1.0
    ensures r.Ok? ==> r.value.c2 == r.value.kp - r.value.ka
    ensures PassiveCoefficient(m.radians(phiDeg), m).Err? ==> r == Err(ZeroDivisionError)
  {
    var phi := m.radians(phiDeg);
    match PassiveCoefficient(phi, m)
    case Err(e) => Err(e)
    case Ok(kp) =>
      if kp == 0.0 then Err(ZeroDivisionError)
      else
        var ka := 1.0 / kp;
        var k0 := 0.4;
        var alpha := phi / 2.0;
        var beta := m.radians(45.0 + phiDeg / 2.0);
        if m.cos(alpha) == 0.0 then Err(ZeroDivisionError)
        else
          var c1 := m.tan(beta) * (kp * m.tan(alpha) + k0 * (m.tan(phi) * m.sin(beta) * (1.0 / m.cos(alpha) + 1.0) - m.tan(alpha)));
          var c2 := kp - ka;
          if kp + k0 * m.tan(phi) < 0.0 || kp < 0.0 then Err(ValueError)
          else if m.sqrt(kp) == 0.0 then Err(ZeroDivisionError)
          else
            var c3 := 3.0 * kp * kp * m.sqrt(kp + k0 * m.tan(phi)) / m.sqrt(kp);
            assert ka * kp == 1.0;
            Ok(SandCoefficients(kp, ka, c1, c2, c3))
  }

  /** The quantities of the sand p-y curve at one depth. */
  datatype SandPy = SandPy(
    coeffs: SandCoefficients, gammaEff: real, puShallow: real, puDeep: real, pu: real,
    modulus: real, reduction: real)

  /** Sand ultimate load Pu = min(shallow, deep), initial modulus k and
      reduction factor A = max(3 - 0.8 z / D, 0.9); a zero diameter raises
      ZeroDivisionError. */
  function SandPyParams(layer: Layer, d: real, depth: real, m: MathLib): (r: Result<SandPy>)
    ensures r.Ok? ==> r.value.reduction >= 0.9
    ensures r.Ok? ==> r.value.pu <= r.value.puShallow && r.value.pu <= r.value.puDeep
    ensures r.Ok? ==> r.value.pu == r.value.puShallow || r.value.pu == r.value.puDeep
    ensures r.Ok? ==> r.value.gammaEff == EffectiveUnitWeight(layer.gamma)
    ensures r.Ok? ==> SandCoefficientsOf(layer.phiDeg, m) == Ok(r.value.coeffs)
    ensures SandCoefficientsOf(layer.phiDeg, m).Err? ==> r == Err(SandCoefficientsOf(layer.phiDeg, m).error)
    ensures d == 0.0 ==> r.Err?
  {
    match SandCoefficientsOf(layer.phiDeg, m)
    case Err(e) => Err(e)
    case Ok(c) =>
      var g := EffectiveUnitWeight(layer.gamma);
      var puS := (c.c1 * depth + c.c2 * d) * g * depth;
      var puD := c.c3 * d * g * depth;
      var k := 5.4 * m.pow(layer.phiDeg, 1.5) / 1000.0;
      if d == 0.0 then Err(ZeroDivisionError)
      else Ok(SandPy(c, g, puS, puD, Min(puS, puD), k, Max(3.0 - 0.8 * depth / d, 0.9)))
  }

  /** One point of the sand p-y curve: A Pu tanh(k z / Pu * y). */
  function SandReaction(sp: SandPy, depth: real, y: real, m: MathLib): real
    requires sp.pu != 0.0
  {
    sp.reduction * sp.pu * m.tanh((sp.modulus * depth / sp.pu) * y)
  }

  datatype PyCurveOut = PyCurveOut(y: seq<real>, p: seq<Float>)

  /** get_py_curve: fills the preallocated reaction array point by point.
      Clay follows ClayReaction; sand follows SandReaction and raises when a
      coefficient divides by zero (Pu = 0 fails at the first point) and
      with TypeError when a negative friction angle makes k complex; any
      other layer type leaves the reactions at zero. */
  method PyCurve(layer: Layer, d: real, depth: real, m: MathLib) returns (r: Result<PyCurveOut>)
    ensures r.Ok? ==> r.value.y == PyDeflections(d) && |r.value.p| == PyPoints
    ensures layer.kind == Clay ==>
              r.Ok? && forall i :: 0 <= i < PyPoints ==>
                r.value.p[i] == ClayReaction(layer, d, depth, r.value.y[i], m)
    ensures layer.kind == Sand ==>
              var sp := SandPyParams(layer, d, depth, m);
              (r.Ok? <==> sp.Ok? && sp.value.pu != 0.0 && layer.phiDeg >= 0.0) &&
              (sp.Err? ==> r == Err(sp.error)) &&
              (sp.Ok? && sp.value.pu == 0.0 ==> r == Err(ZeroDivisionError)) &&
              (sp.Ok? && sp.value.pu != 0.0 && layer.phiDeg < 0.0 ==> r == Err(TypeError)) &&
              (r.Ok? ==> forall i :: 0 <= i < PyPoints ==>
                 r.value.p[i] == Fin(SandReaction(sp.value, depth, r.value.y[i], m)))
    ensures layer.kind == Other ==>
              r.Ok? && forall i :: 0 <= i < PyPoints ==> r.value.p[i] == Fin(0.0)
  {
    var y := PyDeflections(d);
    var p := new Float[PyPoints](_ => Fin(0.0));
    assert forall j :: 0 <= j < PyPoints ==> p[j] == Fin(0.0);
    match layer.kind {
      case Clay =>
        for i := 0 to PyPoints
          invariant forall j :: 0 <= j < i ==> p[j] == ClayReaction(layer, d, depth, y[j], m)
        {
          p[i] := ClayReaction(layer, d, depth, y[i], m);
        }
      case Sand =>
        var sp := SandPyParams(layer, d, depth, m);
        if sp.Err? {
          return Err(sp.error);
        }
        for i := 0 to PyPoints
          invariant i > 0 ==> sp.value.pu != 0.0 && layer.phiDeg >= 0.0
          invariant forall j :: 0 <= j < i ==> p[j] == Fin(SandReaction(sp.value, depth, y[j], m))
        {
          if sp.value.pu == 0.0 {
            return Err(ZeroDivisionError);
          }
          // a negative angle makes the modulus complex, which tanh refuses
          if layer.phiDeg < 0.0 {
            return Err(TypeError);
          }
          p[i] := Fin(SandReaction(sp.value, depth, y[i], m));
        }
      case Other =>
        assert forall j :: 0 <= j < PyPoints ==> p[j] == Fin(0.0);
    }
    r := Ok(PyCurveOut(y, p[..]));
    assert forall j :: 0 <= j < PyPoints ==> r.value.p[j] == p[j];
  }
}
