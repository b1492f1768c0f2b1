/** The outer part of axial_analysis: the trivial-load early return, the ten
    load levels with warm-started Newton solves, and the post-processing of
    the final settlement profile into cumulative shaft shear and toe
    resistance. */
module AxialRun {
  import opened Numerics
  import opened Curves
  import opened LayerLookup
  import opened Interpolation
  import opened Axial
  import opened AxialSolver

  /** The head travel one load level can produce at most: 80 steps of 0.5 mm. */
  const LevelTravel: real := 0.04

  function Nans(n: nat): (r: seq<Float>)
    ensures |r| == n && forall i :: 0 <= i < n ==> r[i] == NaN
  {
    seq(n, i => NaN)
  }

  /** P = P_kN * 1e3. */
  function Newtons(pKN: real): real { pKN * 1000.0 }

  // ----------------------------------------------------------- load levels

  /** The settlements recorded per load level and the final settlement
      profile (None once an increment was not finite). */
  datatype Steps = Steps(settlements: seq<Float>, last: Option<seq<real>>)

  /** One load level's solve: from the previous settlements and the head
      load in kN, the new settlements, or None once they are not finite. */
  type Level = (seq<real>, real) -> Option<seq<real>>

  /** The Newton loop of axial_analysis as a Level, at P = P_kN * 1e3. */
  function NewtonLevel(b: Bar, solve: Solver): Level {
    (w: seq<real>, pKN: real) =>
      if Fits(b, w) then Newton(b, w, Newtons(pKN), solve, MaxIterations) else None
  }

  /** From w at load pKN, the level keeps the node count and moves the head
      by at most 40 mm. */
  ghost predicate CappedFrom(level: Level, w: seq<real>, pKN: real) {
    level(w, pKN).Some? ==>
      |level(w, pKN).value| == |w| && (|w| > 0 ==> Abs(level(w, pKN).value[0] - w[0]) <= LevelTravel)
  }

  /** A level keeps the node count and moves the head by at most 40 mm. */
  ghost predicate Capped(level: Level) {
    forall w, pKN :: CappedFrom(level, w, pKN)
  }

  lemma CappedAt(level: Level, w: seq<real>, pKN: real)
    requires Capped(level)
    ensures level(w, pKN).Some? ==>
              |level(w, pKN).value| == |w| && (|w| > 0 ==> Abs(level(w, pKN).value[0] - w[0]) <= LevelTravel)
  {
    assert CappedFrom(level, w, pKN);
  }

  /** The step cap makes the Newton loop a capped level. */
  lemma NewtonLevelCapped(b: Bar, solve: Solver)
    ensures Capped(NewtonLevel(b, solve))
  {
    forall w, pKN
      ensures CappedFrom(NewtonLevel(b, solve), w, pKN)
    {
      if Fits(b, w) {
        assert (MaxIterations as real) * MaxStep == LevelTravel;
        NewtonBounded(b, w, Newtons(pKN), solve, MaxIterations);
      }
    }
  }

  /** Steps the loads in order, each level warm-started from the previous
      level's settlements, recording the head settlement w[0] of each. */
  function LoadSteps(loads: seq<real>, w: seq<real>, level: Level): (r: Steps)
    requires |w| > 0 && Capped(level)
    ensures |r.settlements| == |loads|
    ensures r.last.Some? ==> |r.last.value| == |w|
    decreases |loads|
  {
    if loads == [] then Steps([], Some(w))
    else
      match level(w, loads[0])
      case None => Steps(Nans(|loads|), None)
      case Some(w1) =>
        CappedAt(level, w, loads[0]);
        var rest := LoadSteps(loads[1..], w1, level);
        Steps([Fin(w1[0])] + rest.settlements, rest.last)
  }

  /** The final profile is present exactly when every level recorded a
      finite settlement, and then the last of them is its head value. */
  lemma {:induction false} LoadStepsLast(loads: seq<real>, w: seq<real>, level: Level)
    requires |w| > 0 && Capped(level)
    ensures var r := LoadSteps(loads, w, level);
            (loads == [] ==> r.last == Some(w)) &&
            (loads != [] ==> (r.last.Some? <==> AllFinite(r.settlements))) &&
            (loads != [] && r.last.Some? ==> r.settlements[|loads| - 1] == Fin(r.last.value[0]))
    decreases |loads|
  {
    if loads != [] {
      CappedAt(level, w, loads[0]);
      match level(w, loads[0])
      case None =>
        assert LoadSteps(loads, w, level).settlements[0] == NaN;
      case Some(w1) =>
        LoadStepsLast(loads[1..], w1, level);
        var rest := LoadSteps(loads[1..], w1, level);
        var r := LoadSteps(loads, w, level);
        assert r == Steps([Fin(w1[0])] + rest.settlements, rest.last);
        if rest.last.Some? {
          forall i | 0 <= i < |loads|
            ensures r.settlements[i].Fin?
          {
            if i > 0 {
              assert r.settlements[i] == rest.settlements[i - 1];
            }
          }
        } else {
          assert loads[1..] != [];
          var j :| 0 <= j < |rest.settlements| && !rest.settlements[j].Fin?;
          assert r.settlements[j + 1] == rest.settlements[j];
        }
    }
  }

  /** Once a level records NaN, every later level does too. */
  lemma {:induction false} LoadStepsPoisonSticks(loads: seq<real>, w: seq<real>, level: Level)
    requires |w| > 0 && Capped(level)
    ensures forall k, j :: 0 <= k <= j < |loads| && LoadSteps(loads, w, level).settlements[k].NaN? ==>
              LoadSteps(loads, w, level).settlements[j].NaN?
    decreases |loads|
  {
    if loads != [] {
      CappedAt(level, w, loads[0]);
      match level(w, loads[0])
      case None =>
      case Some(w1) =>
        LoadStepsPoisonSticks(loads[1..], w1, level);
        var rest := LoadSteps(loads[1..], w1, level).settlements;
        var s := LoadSteps(loads, w, level).settlements;
        assert s == [Fin(w1[0])] + rest;
        forall k, j | 0 <= k <= j < |loads| && s[k].NaN?
          ensures s[j].NaN?
        {
          assert k > 0;
          assert s[k] == rest[k - 1] && s[j] == rest[j - 1];
        }
    }
  }

  /** The head settlement recorded at level k is within (k + 1) * 40 mm of
      the starting one. */
  lemma {:induction false} LoadStepsBounded(loads: seq<real>, w: seq<real>, level: Level)
    requires |w| > 0 && Capped(level)
    ensures forall k :: 0 <= k < |loads| && LoadSteps(loads, w, level).settlements[k].Fin? ==>
              Abs(LoadSteps(loads, w, level).settlements[k].v - w[0]) <= (k + 1) as real * LevelTravel
    decreases |loads|
  {
    if loads != [] {
      CappedAt(level, w, loads[0]);
      match level(w, loads[0])
      case None =>
      case Some(w1) =>
        assert Abs(w1[0] - w[0]) <= LevelTravel;
        LoadStepsBounded(loads[1..], w1, level);
        var rest := LoadSteps(loads[1..], w1, level).settlements;
        var s := LoadSteps(loads, w, level).settlements;
        assert s == [Fin(w1[0])] + rest;
        forall k | 0 <= k < |loads| && s[k].Fin?
          ensures Abs(s[k].v - w[0]) <= (k + 1) as real * LevelTravel
        {
          if k > 0 {
            assert s[k] == rest[k - 1];
            assert Abs(rest[k - 1].v - w1[0]) <= ((k - 1) + 1) as real * LevelTravel;
          }
        }
    }
  }

  /** LoadSteps with the first levels already done. */
  function Resume(done: seq<Float>, r: Steps): Steps {
    Steps(done + r.settlements, r.last)
  }

  /** A level that converges moves one settlement from the pending levels
      to the recorded ones. */
  lemma ResumeSome(done: seq<Float>, loads: seq<real>, k: nat, w: seq<real>, level: Level, w1: seq<real>)
    requires |w| > 0 && Capped(level) && k < |loads| && level(w, loads[k]) == Some(w1)
    ensures |w1| == |w|
    ensures Resume(done, LoadSteps(loads[k..], w, level)) ==
            Resume(done + [Fin(w1[0])], LoadSteps(loads[k + 1..], w1, level))
  {
    CappedAt(level, w, loads[k]);
    assert loads[k..][0] == loads[k] && loads[k..][1..] == loads[k + 1..];
  }

  /** A level that poisons the settlements records NaN for every pending level. */
  lemma ResumeNone(done: seq<Float>, loads: seq<real>, k: nat, w: seq<real>, level: Level)
    requires |w| > 0 && Capped(level) && k < |loads| && level(w, loads[k]).None?
    ensures Resume(done, LoadSteps(loads[k..], w, level)) == Steps(done + Nans(|loads| - k), None)
  {
    var rest := loads[k..];
    assert rest != [] && rest[0] == loads[k] && |rest| == |loads| - k;
    assert LoadSteps(rest, w, level) == Steps(Nans(|rest|), None);
  }

  /** One load level: w = w_prev.copy(), then the Newton loop on w. */
  method SolveLevel(b: Bar, wPrev: array<real>, pKN: real, solve: Solver) returns (w: array<real>, ok: bool)
    requires Fits(b, wPrev[..])
    ensures fresh(w) && w.Length == wPrev.Length
    ensures ok <==> NewtonLevel(b, solve)(wPrev[..], pKN).Some?
    ensures ok ==> w[..] == NewtonLevel(b, solve)(wPrev[..], pKN).value
  {
    w := new real[wPrev.Length](k requires 0 <= k < wPrev.Length reads wPrev => wPrev[k]);
    assert w[..] == wPrev[..];
    ok := NewtonSolve(b, w, Newtons(pKN), solve);
  }

  /** The levels before k are recorded in `done` and w holds the
      settlements they left behind. */
  ghost predicate Progress(b: Bar, loads: seq<real>, solve: Solver, done: seq<Float>, k: nat, w: seq<real>)
    requires b.Valid()
  {
    NewtonLevelCapped(b, solve);
    |w| == b.n + 1 && k <= |loads| &&
    Stepped(b, loads, solve) == Resume(done, LoadSteps(loads[k..], w, NewtonLevel(b, solve)))
  }

  /** One pass of the loop over load levels: solve level k, then record its
      head settlement, or record NaN for it and every later level. */
  method AdvanceLevel(b: Bar, loads: seq<real>, solve: Solver, done: seq<Float>, k: nat, wPrev: array<real>)
      returns (w: array<real>, ok: bool, recorded: seq<Float>)
    requires b.Valid() && k < |loads| && Progress(b, loads, solve, done, k, wPrev[..])
    ensures fresh(w) && w.Length == b.n + 1
    ensures ok ==> recorded == done + [Fin(w[0])] && Progress(b, loads, solve, recorded, k + 1, w[..])
    ensures !ok ==> Stepped(b, loads, solve) == Steps(recorded, None)
  {
    NewtonLevelCapped(b, solve);
    var level := NewtonLevel(b, solve);
    w, ok := SolveLevel(b, wPrev, loads[k], solve);
    if !ok {
      ResumeNone(done, loads, k, wPrev[..], level);
      recorded := done + Nans(|loads| - k);
    } else {
      ResumeSome(done, loads, k, wPrev[..], level, w[..]);
      recorded := done + [Fin(w[0])];
    }
  }

  /** The loop over load levels, from w_prev = zeros. */
  method StepLoads(b: Bar, loads: seq<real>, solve: Solver) returns (settlements: seq<Float>, last: Option<seq<real>>)
    requires b.Valid()
    ensures Steps(settlements, last) == Stepped(b, loads, solve)
  {
    var wPrev := new real[b.n + 1](k => 0.0);
    assert wPrev[..] == Zeros(b.n + 1);
    settlements := [];
    ProgressStart(b, loads, solve);
    for k := 0 to |loads|
      invariant Progress(b, loads, solve, settlements, k, wPrev[..])
    {
      var w, ok, recorded := AdvanceLevel(b, loads, solve, settlements, k, wPrev);
      settlements := recorded;
      if !ok {
        last := None;
        return;
      }
      wPrev := w;
    }
    ProgressDone(b, loads, solve, settlements, wPrev[..]);
    last := Some(wPrev[..]);
  }

  lemma ProgressStart(b: Bar, loads: seq<real>, solve: Solver)
    requires b.Valid()
    ensures Progress(b, loads, solve, [], 0, Zeros(b.n + 1))
  {
    NewtonLevelCapped(b, solve);
    FromRestResume(b.n + 1, loads, NewtonLevel(b, solve));
  }

  /** Nothing is recorded before the first level. */
  lemma FromRestResume(n: nat, loads: seq<real>, level: Level)
    requires n > 0 && Capped(level)
    ensures FromRest(n, loads, level) == Resume([], LoadSteps(loads[0..], Zeros(n), level))
  {
    var r := LoadSteps(loads, Zeros(n), level);
    assert [] + r.settlements == r.settlements;
    assert loads[0..] == loads;
  }

  /** Once every level is recorded, the loop has computed Stepped. */
  lemma ProgressDone(b: Bar, loads: seq<real>, solve: Solver, done: seq<Float>, w: seq<real>)
    requires b.Valid() && Progress(b, loads, solve, done, |loads|, w)
    ensures Stepped(b, loads, solve) == Steps(done, Some(w))
  {
    assert loads[|loads|..] == [];
  }

  // ------------------------------------------------------- post-processing

  /** Depth of the middle of segment i. */
  function MidDepth(b: Bar, i: nat): real
    requires b.Valid() && i < b.n
  {
    b.z[i] + 0.5 * b.dz
  }

  /** Shaft shear carried by segment i (N): the t-z stress at the mid-depth
      for the segment's slip, times the perimeter and the segment length. */
  function SegmentShear(b: Bar, w: seq<real>, i: nat): real
    requires Fits(b, w) && i < b.n
  {
    var c := ShaftCurve(b.profile, b.d, MidDepth(b, i), b.m);
    Times(Force(CurveAt(c, Slip(w, i + 1)), b.perimeter), b.dz)
  }

  function SegmentShears(b: Bar, w: seq<real>): (s: seq<real>)
    requires Fits(b, w)
    ensures |s| == b.n
  {
    seq(b.n, i requires 0 <= i < b.n => SegmentShear(b, w, i))
  }

  /** shear_per_seg_N as filled so far: entries below `upto` are final. */
  predicate ShearsDone(b: Bar, w: seq<real>, seg: array<real>, upto: nat)
    requires Fits(b, w) && seg.Length == b.n
    reads seg
  {
    forall j :: 0 <= j < b.n ==> seg[j] == (if j < upto then SegmentShear(b, w, j) else 0.0)
  }

  /** The loop filling shear_per_seg_N. */
  method ShearPerSegment(b: Bar, w: seq<real>) returns (seg: array<real>)
    requires Fits(b, w)
    ensures fresh(seg) && seg[..] == SegmentShears(b, w)
  {
    seg := new real[b.n](i => 0.0);
    for i := 0 to b.n
      invariant ShearsDone(b, w, seg, i)
    {
      PutShear(b, w, seg, i);
    }
    assert forall j :: 0 <= j < b.n ==> seg[j] == SegmentShears(b, w)[j];
  }

  /** One pass of the loop: shear_per_seg_N[i] = (t_kPa * 1e3) * Pm * dz. */
  method PutShear(b: Bar, w: seq<real>, seg: array<real>, i: nat)
    requires Fits(b, w) && seg.Length == b.n && i < b.n
    requires ShearsDone(b, w, seg, i)
    modifies seg
    ensures ShearsDone(b, w, seg, i + 1)
  {
    var s := SegmentShearAt(b, w, i);
    seg[i] := s;
    forall j | 0 <= j < b.n
      ensures seg[j] == (if j < i + 1 then SegmentShear(b, w, j) else 0.0)
    {
      if j != i {
        assert seg[j] == old(seg[j]);
      }
    }
  }

  /** The shear of segment i as the loop body computes it. */
  method SegmentShearAt(b: Bar, w: seq<real>, i: nat) returns (s: real)
    requires Fits(b, w) && i < b.n
    ensures s == SegmentShear(b, w, i)
  {
    var mid := MidDepth(b, i);
    var layer := GetLayerForZ(b.profile, mid);
    var c := match layer
      case None => Curve([0.0], [0.0])
      case Some(l) => TzCurve(l, b.d, mid, b.m);
    assert c == ShaftCurve(b.profile, b.d, mid, b.m);
    var t := InterpClampedM(Slip(w, i + 1), Fins(c.z), Fins(c.t));
    s := Times(Force(t, b.perimeter), b.dz);
  }

  /** concatenate([0.0], cumsum(seg)). */
  function CumulativeShear(seg: seq<real>): (c: seq<real>)
    ensures |c| == |seg| + 1 && c[0] == 0.0
    ensures forall i :: 0 <= i < |seg| ==> c[i + 1] == c[i] + seg[i]
  {
    if seg == [] then [0.0]
    else
      var c := CumulativeShear(seg[..|seg| - 1]);
      c + [c[|c| - 1] + seg[|seg| - 1]]
  }

  /** The plain sum of a sequence, taken from the front. */
  function Sum(s: seq<real>): real {
    if s == [] then 0.0 else s[0] + Sum(s[1..])
  }

  lemma {:induction false} SumSnoc(s: seq<real>, x: real)
    ensures Sum(s + [x]) == Sum(s) + x
  {
    if s != [] {
      assert (s + [x])[1..] == s[1..] + [x];
      SumSnoc(s[1..], x);
    }
  }

  /** Each cumulative value is the sum of the segment shears above it. */
  lemma {:induction false} CumulativeShearIsSum(seg: seq<real>)
    ensures forall i :: 0 <= i <= |seg| ==> CumulativeShear(seg)[i] == Sum(seg[..i])
  {
    var c := CumulativeShear(seg);
    forall i | 0 <= i <= |seg|
      ensures c[i] == Sum(seg[..i])
    {
      CumulativePrefix(seg, i);
    }
  }

  lemma {:induction false} CumulativePrefix(seg: seq<real>, i: nat)
    requires i <= |seg|
    ensures CumulativeShear(seg)[i] == Sum(seg[..i])
    decreases i
  {
    if i > 0 {
      CumulativePrefix(seg, i - 1);
      assert seg[..i] == seg[..i - 1] + [seg[i - 1]];
      SumSnoc(seg[..i - 1], seg[i - 1]);
    }
  }

  /** When no segment carries negative shear, the cumulative shear never
      decreases down the pile. */
  lemma {:induction false} CumulativeShearMonotone(seg: seq<real>, i: nat, j: nat)
    requires forall k :: 0 <= k < |seg| ==> seg[k] >= 0.0
    requires i <= j <= |seg|
    ensures CumulativeShear(seg)[i] <= CumulativeShear(seg)[j]
    decreases j - i
  {
    if i < j {
      CumulativeShearMonotone(seg, i, j - 1);
    }
  }

  // ---------------------------------------------------------------- result

  /** The returned dictionary: load schedule, head settlement per level, and
      the plots of the final level (node depths, settlements, cumulative
      shear and toe resistance). */
  datatype AxialResult = AxialResult(loadsKN: seq<real>, settlementsM: seq<Float>, zM: seq<real>,
                                     profileM: seq<Float>, shearN: seq<Float>, toeN: Float)

  /** The early return for a non-positive target load. */
  function Trivial(z: seq<real>): AxialResult {
    AxialResult([0.0], [Fin(0.0)], z, Fins(Zeros(|z|)), Fins(Zeros(|z|)), Fin(0.0))
  }

  /** The load stepping of a bar under the given load levels. */
  function Stepped(b: Bar, loads: seq<real>, solve: Solver): (r: Steps)
    requires b.Valid()
    ensures |r.settlements| == |loads|
    ensures r.last.Some? ==> Fits(b, r.last.value)
    ensures forall k :: 0 <= k < |loads| && r.settlements[k].Fin? ==>
              Abs(r.settlements[k].v) <= (k + 1) as real * LevelTravel
  {
    NewtonLevelCapped(b, solve);
    FromRest(b.n + 1, loads, NewtonLevel(b, solve))
  }

  /** The load stepping from zero settlements on n nodes: level k records a
      head settlement of at most (k + 1) * 40 mm. */
  function FromRest(n: nat, loads: seq<real>, level: Level): (r: Steps)
    requires n > 0 && Capped(level)
    ensures |r.settlements| == |loads|
    ensures r.last.Some? ==> |r.last.value| == n
    ensures forall k :: 0 <= k < |loads| && r.settlements[k].Fin? ==>
              Abs(r.settlements[k].v) <= (k + 1) as real * LevelTravel
  {
    var w := Zeros(n);
    LoadStepsBounded(loads, w, level);
    assert w[0] == 0.0;
    LoadSteps(loads, w, level)
  }

  /** The result built from the stepped loads: the plots of the final
      settlement profile, or NaN plots when it was not finite. */
  function Report(b: Bar, loads: seq<real>, steps: Steps): AxialResult
    requires b.Valid() && (steps.last.Some? ==> Fits(b, steps.last.value))
  {
    match steps.last
    case None => AxialResult(loads, steps.settlements, b.z, Nans(b.n + 1), [Fin(0.0)] + Nans(b.n), NaN)
    case Some(w) =>
      AxialResult(loads, steps.settlements, b.z, Fins(w),
                  Fins(CumulativeShear(SegmentShears(b, w))), Fin(ToeLoad(b, w)))
  }

  /** axial_analysis as a function of its inputs and the solver. */
  function Analysis(pile: AxialPile, axialKN: Option<real>, profile: seq<Layer>, nSegments: int,
                    m: MathLib, solve: Solver): Result<AxialResult>
  {
    var n := SegmentCount(nSegments);
    var target := TargetLoad(axialKN);
    if target <= 0.0 then Ok(Trivial(Linspace(0.0, pile.lengthM, n + 1)))
    else if pile.lengthM == 0.0 then Err(ZeroDivisionError)
    else
      match TipCurve(profile, pile.diameterM, pile.lengthM, m)
      case Err(e) => Err(e)
      case Ok(tip) =>
        var b := BarOf(pile, profile, nSegments, m, tip);
        var loads := Linspace(0.0, target, LoadLevels);
        Ok(Report(b, loads, Stepped(b, loads, solve)))
  }

  /** The plots of a finite final profile. */
  method Plots(b: Bar, loads: seq<real>, settlements: seq<Float>, w: seq<real>) returns (r: AxialResult)
    requires Fits(b, w)
    ensures r == Report(b, loads, Steps(settlements, Some(w)))
  {
    var seg := ShearPerSegment(b, w);
    var shear := CumulativeShear(seg[..]);
    var toe := Force(CurveAt(b.tip, Abs(w[b.n])), b.area);
    r := AxialResult(loads, settlements, b.z, Fins(w), Fins(shear), Fin(toe));
  }

  /** axial_analysis. */
  method AxialAnalysis(pile: AxialPile, axialKN: Option<real>, profile: seq<Layer>, nSegments: int,
                       m: MathLib, solve: Solver) returns (r: Result<AxialResult>)
    ensures r == Analysis(pile, axialKN, profile, nSegments, m, solve)
  {
    var target := TargetLoad(axialKN);
    var n := SegmentCount(nSegments);
    var z := Linspace(0.0, pile.lengthM, n + 1);
    if target <= 0.0 {
      return Ok(Trivial(z));
    }
    if pile.lengthM == 0.0 {
      return Err(ZeroDivisionError);
    }
    var tip := TipCurve(profile, pile.diameterM, pile.lengthM, m);
    if tip.Err? {
      return Err(tip.error);
    }
    var b := BarOf(pile, profile, nSegments, m, tip.value);
    var loads := Linspace(0.0, target, LoadLevels);
    var settlements, last := StepLoads(b, loads, solve);
    if last.None? {
      return Ok(Report(b, loads, Steps(settlements, None)));
    }
    var res := Plots(b, loads, settlements, last.value);
    r := Ok(res);
  }

  // ------------------------------------------------------------ properties

  /** A target load <= 0 returns a single zero load and settlement, zero
      settlement and shear profiles over the n + 1 nodes and zero toe
      resistance. */
  lemma TrivialLoad(pile: AxialPile, axialKN: Option<real>, profile: seq<Layer>, nSegments: int,
                    m: MathLib, solve: Solver)
    requires TargetLoad(axialKN) <= 0.0
    ensures var r := Analysis(pile, axialKN, profile, nSegments, m, solve);
            r.Ok? && r.value.loadsKN == [0.0] && r.value.settlementsM == [Fin(0.0)] &&
            |r.value.zM| == SegmentCount(nSegments) + 1 &&
            |r.value.profileM| == |r.value.zM| && |r.value.shearN| == |r.value.zM| &&
            (forall i :: 0 <= i < |r.value.zM| ==> r.value.profileM[i] == Fin(0.0) && r.value.shearN[i] == Fin(0.0)) &&
            r.value.toeN == Fin(0.0)
  {
  }

  /** A positive target load fails only for a zero-length pile (division by
      dz = 0 in the head row) or when the toe layer's q_max fails. */
  lemma AnalysisErrors(pile: AxialPile, axialKN: Option<real>, profile: seq<Layer>, nSegments: int,
                       m: MathLib, solve: Solver)
    requires TargetLoad(axialKN) > 0.0
    ensures var r := Analysis(pile, axialKN, profile, nSegments, m, solve);
            var tip := TipCurve(profile, pile.diameterM, pile.lengthM, m);
            (pile.lengthM == 0.0 ==> r == Err(ZeroDivisionError)) &&
            (pile.lengthM != 0.0 ==> (r.Err? <==> tip.Err?)) &&
            (pile.lengthM != 0.0 && tip.Err? ==> r == Err(tip.error))
  {
  }

  /** The result of a positive target load on a pile of non-zero length
      whose toe curve exists: the report of the stepped bar. */
  lemma AnalysisStepped(pile: AxialPile, axialKN: Option<real>, profile: seq<Layer>, nSegments: int,
                        m: MathLib, solve: Solver)
    requires TargetLoad(axialKN) > 0.0 && pile.lengthM != 0.0
    requires TipCurve(profile, pile.diameterM, pile.lengthM, m).Ok?
    ensures BarOf(pile, profile, nSegments, m, TipCurve(profile, pile.diameterM, pile.lengthM, m).value).Valid()
    ensures Analysis(pile, axialKN, profile, nSegments, m, solve) ==
              Ok(Report(BarOf(pile, profile, nSegments, m, TipCurve(profile, pile.diameterM, pile.lengthM, m).value),
                        Linspace(0.0, TargetLoad(axialKN), LoadLevels),
                        Stepped(BarOf(pile, profile, nSegments, m, TipCurve(profile, pile.diameterM, pile.lengthM, m).value),
                                Linspace(0.0, TargetLoad(axialKN), LoadLevels), solve)))
  {
  }

  /** A positive target load on a non-zero-length pile gives ten evenly
      spaced load levels from 0 to the target with one settlement per
      level, max(10, n_segments) + 1 node depths from 0 to L, one
      settlement and one cumulative shear (starting at zero) per node. */
  lemma AnalysisSchedule(pile: AxialPile, axialKN: Option<real>, profile: seq<Layer>, nSegments: int,
                         m: MathLib, solve: Solver)
    requires TargetLoad(axialKN) > 0.0 && pile.lengthM != 0.0
    requires TipCurve(profile, pile.diameterM, pile.lengthM, m).Ok?
    ensures Analysis(pile, axialKN, profile, nSegments, m, solve).Ok?
    ensures Analysis(pile, axialKN, profile, nSegments, m, solve).value.loadsKN ==
              Linspace(0.0, TargetLoad(axialKN), LoadLevels)
    ensures |Analysis(pile, axialKN, profile, nSegments, m, solve).value.settlementsM| == LoadLevels
    ensures Analysis(pile, axialKN, profile, nSegments, m, solve).value.zM ==
              Linspace(0.0, pile.lengthM, SegmentCount(nSegments) + 1)
    ensures |Analysis(pile, axialKN, profile, nSegments, m, solve).value.profileM| == SegmentCount(nSegments) + 1
    ensures |Analysis(pile, axialKN, profile, nSegments, m, solve).value.shearN| == SegmentCount(nSegments) + 1
    ensures Analysis(pile, axialKN, profile, nSegments, m, solve).value.shearN[0] == Fin(0.0)
  {
    var b := BarOf(pile, profile, nSegments, m, TipCurve(profile, pile.diameterM, pile.lengthM, m).value);
    var loads := Linspace(0.0, TargetLoad(axialKN), LoadLevels);
    AnalysisStepped(pile, axialKN, profile, nSegments, m, solve);
    ReportShape(b, loads, Stepped(b, loads, solve));
  }

  /** The step cap bounds the reported head settlement at load level k by
      (k + 1) * 40 mm. */
  lemma AnalysisSettlementBound(pile: AxialPile, axialKN: Option<real>, profile: seq<Layer>, nSegments: int,
                                m: MathLib, solve: Solver, k: nat)
    requires TargetLoad(axialKN) > 0.0 && pile.lengthM != 0.0
    requires TipCurve(profile, pile.diameterM, pile.lengthM, m).Ok?
    requires k < LoadLevels
    requires Analysis(pile, axialKN, profile, nSegments, m, solve).value.settlementsM[k].Fin?
    ensures Abs(Analysis(pile, axialKN, profile, nSegments, m, solve).value.settlementsM[k].v) <= (k + 1) as real * LevelTravel
  {
    var b := BarOf(pile, profile, nSegments, m, TipCurve(profile, pile.diameterM, pile.lengthM, m).value);
    var loads := Linspace(0.0, TargetLoad(axialKN), LoadLevels);
    AnalysisStepped(pile, axialKN, profile, nSegments, m, solve);
    ReportShape(b, loads, Stepped(b, loads, solve));
  }

  /** The shape of a report: the schedule and settlements as stepped, the
      node depths, and one profile value and one cumulative shear (the
      first zero) per node. */
  lemma ReportShape(b: Bar, loads: seq<real>, steps: Steps)
    requires b.Valid() && (steps.last.Some? ==> Fits(b, steps.last.value))
    ensures var r := Report(b, loads, steps);
            r.loadsKN == loads && r.settlementsM == steps.settlements && r.zM == b.z &&
            |r.profileM| == b.n + 1 && |r.shearN| == b.n + 1 && r.shearN[0] == Fin(0.0)
  {
  }

  /** On a finite final profile w the plots are those of w: the shear at
      node i + 1 adds segment i's shear to the shear at node i, the last
      shear is the sum over all segments, and the toe value is the q-z
      resistance at |w[n]|. */
  lemma ReportPlots(b: Bar, loads: seq<real>, steps: Steps)
    requires b.Valid() && steps.last.Some? && Fits(b, steps.last.value)
    ensures var w := steps.last.value;
            var r := Report(b, loads, steps);
            r.profileM == Fins(w) && AllFinite(r.shearN) &&
            (forall i :: 0 <= i < b.n ==> r.shearN[i + 1].v == r.shearN[i].v + SegmentShear(b, w, i)) &&
            r.shearN[b.n] == Fin(Sum(SegmentShears(b, w))) &&
            r.toeN == Fin(ToeLoad(b, w))
  {
    var w := steps.last.value;
    var seg := SegmentShears(b, w);
    var r := Report(b, loads, steps);
    assert r.shearN == Fins(CumulativeShear(seg));
    CumulativeShearIsSum(seg);
    assert seg[..b.n] == seg;
    forall i | 0 <= i < b.n
      ensures r.shearN[i + 1].v == r.shearN[i].v + SegmentShear(b, w, i)
    {
      assert seg[i] == SegmentShear(b, w, i);
    }
  }

  /** Once the final profile is not finite, the profile, the shear below the
      head and the toe resistance are all reported as NaN. */
  lemma ReportPoisoned(b: Bar, loads: seq<real>, steps: Steps)
    requires b.Valid() && steps.last.None?
    ensures var r := Report(b, loads, steps);
            (forall i :: 0 <= i <= b.n ==> r.profileM[i] == NaN) &&
            r.shearN[0] == Fin(0.0) && (forall i :: 1 <= i <= b.n ==> r.shearN[i] == NaN) &&
            r.toeN == NaN
  {
  }
}
