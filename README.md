# Single-pile axial and lateral analysis — a Dafny model

This project models the numerical core of a desktop tool for single piles:

- **Soil-reaction curves** (`app/models/curves.py`). The shaft t-z curve,
  the tip q-z curve and the lateral p-y curve are built from one soil layer
  (clay, sand or any other type). The axial curves are the tabulated shapes
  of API RP 2A-WSD / API RP 2GEO. The clay p-y curve is Matlock-style and
  the sand p-y curve Reese-style.
- **Axial load-settlement analysis** (`app/models/axial.py`). The pile is
  cut into `n = max(10, n_segments)` segments. At ten load levels from 0 to
  the target head load, warm-started Newton iterations find the node
  settlements:
  - the head, interior and toe equilibrium rows of a tridiagonal Jacobian
    are assembled;
  - the increment is capped at 0.5 mm per component;
  - at most 80 iterations run per level, stopping once every component is
    below 1 micron.
  - Soil reactions come from the t-z/q-z curves through a robust
    interpolator (`interp_clamped`): drop non-finite pairs, stable sort,
    nudge duplicate abscissae, interpolate with clamping.
  - The final profile is post-processed into cumulative shaft shear and
    toe resistance.
- **Lateral analysis** (`app/models/lateral.py`). The pile is a beam on
  non-linear Winkler springs, `EI y'''' = p(y, z)`, with finite-difference
  operators D2, D3 = D1·D2 and D4 = D2·D2. For each head load step there
  are Newton iterations:
  - the springs are sampled and sanitised;
  - the base system `(EI D4 - diag k) dy = p - EI D4 y` is built;
  - head and tip boundary rows replace rows of it;
  - free-head loads are injected and the system is regularised;
  - the increment is solved, then checked for finiteness, divergence and convergence.
  - Post-processing gives rotation, moment, shear and soil reaction.

The model works on values. Python floats are `real`. A value that may be
non-finite is a `Float` (finite, NaN, +inf, -inf). Python exceptions are
`Err(...)` results. The math-module functions (`pow`, `exp`, `tan`,
`sin`, `cos`, `tanh`, `sqrt`, `radians`) are an uninterpreted `MathLib`
record of functions. The dense linear solve and the lateral `py_spring`
callback are function-valued parameters. Where the source updates storage
in place, the model is imperative and each method is proved against a
specification function:

- the axial Jacobian `array2`;
- the residual, increment and settlement arrays;
- the in-place nudge of `interp_clamped`;
- the finite-difference stencils;
- the row replacement of `apply_boundary_conditions`;
- the p-y point loop.

A few lines of the code do something other than what their names and
comments suggest. The model follows the code as written:

- `lateral.py:192` computes the candidate `y_new = y + relax * dy`. After
  the divergence test, `lateral.py:197` replaces it by `nan_to_num` of the
  *current* deflection `y`. The deflection therefore never moves. Every load step reports the initial
  profile `1e-6 exp(-z / max(1e-9, 0.2 L))`, whatever the loads, springs
  or solver (`Lateral.DeflectionNeverAdvances`). The Newton loop converges
  exactly when it runs at all and its first increment passes the test
  (`Lateral.Iterate`).
- `converged` is set at `lateral.py:202`, but the dictionary returned at
  `lateral.py:233-237` has no entry for it (`Lateral.Analysis`).
- `finite_diff_mats` leaves rows 0 and n-1 of D2 and D1 zero, so D3 and D4
  have zero end rows too (`LateralOps.BoundaryRowsZero`). Consequences:
  - the reported moment and shear are zero at both ends whatever the head
    loads (`Lateral.ReportedEndsZero`);
  - the free-tip moment row of the boundary conditions is a zero row with
    a zero right-hand side (`LateralOps.TipMomentRowVanishes`).
- The passive coefficient is parenthesised as `1 + sin/(1 - sin)` rather
  than `(1 + sin)/(1 - sin)`. The model keeps the code's form
  (`Curves.PassiveCoefficient`).

Modules: `Numerics` (numerics.dfy), `Curves` (curves.dfy),
`LayerLookup` (profile.dfy), `Interpolation` (interp.dfy), `Axial` and
`AxialSolver` (axial.dfy), `AxialRun` (axial_run.dfy), `LateralOps`
(lateral_ops.dfy), `Lateral` (lateral.dfy).

## Model

| member | source | states |
|---|---|---|
| Numerics.NanToNum | app/models/lateral.py:145-146 | finite values pass unchanged; NaN, +inf and -inf map to the three given replacements |
| Numerics.Clip | app/models/lateral.py:147 | the result lies in [lo, hi] and equals the input when the input is already inside |
| Numerics.MaxAbs | app/models/axial.py:169 | the result bounds the magnitude of every component |
| Numerics.MaxAbsAttained | app/models/axial.py:169 | the maximum magnitude is that of some component, so it is a true maximum |
| Numerics.Linspace | app/models/axial.py:26 | num values, the first is start, the last is stop, consecutive values a constant step apart |
| Curves.ClayAdhesion | app/models/curves.py:30-35 | alpha never exceeds 1; it is exactly 1 when sigma_v or su is not positive; otherwise it is the raw factor or 1, whichever is smaller |
| Curves.RawAdhesion | app/models/curves.py:31-32 | (definition) alpha = 0.5 psi^-0.5 for psi <= 1, else 0.5 psi^-0.25 |
| Curves.ClayShaftPeak | app/models/curves.py:25-36 | (definition) t_max = alpha su with sigma_v = gamma depth |
| Curves.SandShaftPeak | app/models/curves.py:46-50 | (definition) t_max = 0.8 sigma_v tan(phi - 5 deg) |
| Curves.Scaled | app/models/curves.py:42-43 | every entry is the table entry times the factor, same length |
| Curves.ClayTzCurve | app/models/curves.py:28-43 | eight points, point i at ((z/D)_i D, (t/t_max)_i t_max) with t_max = alpha su; so it starts at (0, 0), peaks at t_max at 0.01 D and ends on the plateau 0.8 t_max |
| Curves.ClayTzPoints | app/models/curves.py:39-43 | every one of the eight points is the table entry scaled by D and t_max, for any diameter and peak friction |
| Curves.SandTzCurve | app/models/curves.py:45-55 | fixed displacement table; every friction is its ratio times t_max = 0.8 sigma_v tan(phi - 5 deg); the last point reaches t_max |
| Curves.TzCurve | app/models/curves.py:14-56 | the two lists have equal length; clay and sand dispatch to their curves; any other type gives two empty lists |
| Curves.SandTzShape | app/models/curves.py:45-55 | the sand curve does not depend on the diameter; with t_max >= 0 its friction never decreases with slip |
| Curves.TipPeak | app/models/curves.py:68-79 | clay q_max = 9 su; sand q_max is min(Nq sigma_v, 50000) and fails with ZeroDivisionError exactly when 1.75 + phi is 0; any other type leaves q_max unbound, which the model names UnboundLocalError (the exception CPython 3.12 and later raise at curves.py:85) |
| Curves.SandBearing | app/models/curves.py:75-77 | (definition) Nq = exp(pi (phi - 0.75) / (1.75 + phi)), required only where the divisor is non-zero |
| Curves.QzCurve | app/models/curves.py:58-86 | fails exactly when q_max does, with the same error; otherwise eight points z = (z/D) D and q = ratio q_max, the last two equal to q_max |
| Curves.QzPoints | app/models/curves.py:81-85 | eight points scaled from the shared q-z table, reaching q_max at the last two points |
| Curves.QzShape | app/models/curves.py:81-85 | with q_max >= 0 the tip resistance never decreases with slip and never exceeds q_max |
| Curves.QzPointsShape | app/models/curves.py:82-85 | the q-z ratio table is non-decreasing and bounded by 1, so the scaled points are too |
| Curves.PyDeflections | app/models/curves.py:100 | 100 deflections from 0 to 0.05 D, evenly spaced |
| Curves.PyClaySu | app/models/curves.py:104-106 | the strength used is positive: su itself when positive, otherwise 1.0 |
| Curves.Epsilon50 | app/models/curves.py:107 | 0.02 exactly for su below 24 kPa, 0.005 exactly otherwise |
| Curves.ClayCriticalDeflection | app/models/curves.py:109 | (definition) y_c = 2.5 eps50 D |
| Curves.ClayUltimate | app/models/curves.py:111 | Pu is positive for a positive diameter and a non-negative overburden |
| Curves.ClayPlateau | app/models/curves.py:113-116 | beyond 8 y_c the clay reaction is the plateau Pu |
| Curves.ClayReaction | app/models/curves.py:112-116 | (definition) 0.5 Pu (y / y_c)^(1/3) up to 8 y_c, Pu beyond; its plateau is ClayPlateau |
| Curves.EffectiveUnitWeight | app/models/curves.py:134 | gamma - 9.81 when gamma exceeds 9.81 and gamma itself otherwise (changed exactly when gamma exceeds 9.81); never above gamma; positive for positive gamma |
| Curves.PassiveCoefficient | app/models/curves.py:124 | fails with ZeroDivisionError exactly when sin(phi) = 1; otherwise (k_p - 1)(1 - sin) = sin |
| Curves.SandReaction | app/models/curves.py:143 | (definition) A Pu tanh(k z y / Pu) for Pu != 0; PyCurve states which case reaches it |
| Curves.SandCoefficientsOf | app/models/curves.py:124-131 | k_p is positive, k_a is its reciprocal, C2 = k_p - k_a; a k_p failure surfaces as ZeroDivisionError |
| Curves.SandPyParams | app/models/curves.py:119-141 | Pu is the smaller of the shallow and deep values; A >= 0.9; gamma' is the effective weight; a zero diameter or coefficient failure is an error |
| Curves.PyCurve | app/models/curves.py:88-144 | y is the deflection grid. Clay: every point is the cubic-root/plateau reaction. Sand: the curve fails exactly when the coefficients fail, Pu = 0 (ZeroDivisionError) or the friction angle is negative (TypeError, since phi^1.5 is then complex and tanh refuses it), in that order; otherwise every point is A Pu tanh(k z y / Pu). Any other type: all zero |
| LayerLookup.FirstHolding | app/models/axial.py:29-32 | the index found holds z and no earlier layer does |
| LayerLookup.LayerAt | app/models/axial.py:29-33 | None exactly for an empty profile; the first layer whose [from, to) holds z; otherwise the last layer; always a member of the profile |
| LayerLookup.GetLayerForZ | app/models/axial.py:29-33 | the scan returns LayerAt |
| Interpolation.Xs | app/models/axial.py:57 | the abscissae of the pairs, in order |
| Interpolation.Ys | app/models/axial.py:57 | the ordinates of the pairs, in order |
| Interpolation.FinitePairs | app/models/axial.py:46-48 | never longer than the input; empty exactly when no pair has both components finite (order and completeness: FinitePairsInOrder) |
| Interpolation.FinitePairsFrom | app/models/axial.py:46-48 | every kept pair is the value of some input position where both coordinates are finite |
| Interpolation.FinitePairsAppend | app/models/axial.py:46-48 | the filter of a concatenation is the concatenation of the filters, so pairs keep their input order |
| Interpolation.FinitePairsInOrder | app/models/axial.py:46-48 | every input position with both coordinates finite is kept, at the index counting the finite pairs before it |
| Interpolation.FinitePairsAll | app/models/axial.py:46-48 | with all inputs finite, every pair is kept, in order |
| Interpolation.InsertByX | app/models/axial.py:56-57 | insertion adds exactly the new pair (multiset) |
| Interpolation.InsertAtLeast | app/models/axial.py:56-57 | insertion keeps a lower bound on the abscissae |
| Interpolation.InsertSorted | app/models/axial.py:56-57 | insertion into a sorted list keeps it sorted by x |
| Interpolation.StableSortByX | app/models/axial.py:56-57 | the sort is a permutation of its input, of the same length |
| Interpolation.WithX | app/models/axial.py:56-57 | the pairs with a given x, in input order: each has that x, and there are no more of them than pairs |
| Interpolation.InsertWithX | app/models/axial.py:56-57 | insertion into a sorted list puts the new pair after every pair with the same x |
| Interpolation.StableSortStable | app/models/axial.py:56-57 | stability (mergesort): for every x the pairs with that x keep their input order |
| Interpolation.SortedEnds | app/models/axial.py:56-57 | a sorted permutation starts at the smallest x and ends at the largest |
| Interpolation.SortedEndsWithX | app/models/axial.py:56-57 | the sorted head is the first input pair with the smallest x, the sorted last the last input pair with the largest x |
| Interpolation.StableSortSorted | app/models/axial.py:56-57 | the sort is ordered by x and keeps the length |
| Interpolation.Nudged | app/models/axial.py:60-63 | the nudge keeps the length |
| Interpolation.NudgeStep | app/models/axial.py:62-63 | the new abscissa is above its predecessor and not below the old one; it is unchanged when already above |
| Interpolation.NudgedIncreasing | app/models/axial.py:59-63 | after the nudge the abscissae strictly increase |
| Interpolation.NudgedAbove | app/models/axial.py:59-63 | the nudge keeps the first abscissa and never lowers any |
| Interpolation.NudgedIdentity | app/models/axial.py:59-63 | strictly increasing abscissae are left as they are |
| Interpolation.NudgedPrefix | app/models/axial.py:61-63 | the nudge of k + 1 values extends the nudge of k values by one step |
| Interpolation.NudgeInPlace | app/models/axial.py:60-63 | the array loop leaves exactly the nudged sequence |
| Interpolation.NpInterp | app/models/axial.py:66 | (definition) np.interp with left = y[0], right = y[-1] on strictly increasing knots; its properties are NpInterpBounded, NpInterpClamps and NpInterpKnot |
| Interpolation.Chord | app/models/axial.py:66 | (definition) the linear piece between two knots; ChordEnd and ChordBetween state it |
| Interpolation.SeqMin | app/models/axial.py:127 | a member of the list that bounds it from below |
| Interpolation.SeqMax | app/models/axial.py:127 | a member of the list that bounds it from above |
| Interpolation.ChordEnd | app/models/axial.py:66 | the linear piece reaches the right knot's value at the right knot |
| Interpolation.ChordBetween | app/models/axial.py:66 | between two knots the linear piece lies between the knots' values |
| Interpolation.NpInterpBounded | app/models/axial.py:66 | np.interp stays within any bounds of the ordinates |
| Interpolation.NpInterpClamps | app/models/axial.py:66 | left of the first knot it returns the first value; right of the last knot, the last value |
| Interpolation.NpInterpKnot | app/models/axial.py:66 | at a knot it returns that knot's value |
| Interpolation.InterpClampedM | app/models/axial.py:35-66 | the imperative interpolator equals InterpClamped |
| Interpolation.InterpClamped | app/models/axial.py:35-66 | (definition) 0 with no finite pair, the one value with one pair, otherwise NpInterp over the stably sorted, nudged pairs; its properties are InterpDegenerate, InterpClampedRange and InterpClampedEnds |
| Interpolation.InterpDegenerate | app/models/axial.py:50-53 | with no finite pair the result is 0; with one, it is that pair's value for every query |
| Interpolation.PermutationInRange | app/models/axial.py:56-57 | reordering keeps every value within the range of the original values |
| Interpolation.InterpClampedRange | app/models/axial.py:35-66 | the result lies between the smallest and largest finite ordinate |
| Interpolation.SortedInterpBounded | app/models/axial.py:55-66 | with two or more finite pairs, the result lies within the range of the finite ordinates |
| Interpolation.InterpClampedEnds | app/models/axial.py:55-66 | at or left of the smallest finite x it returns the value of the first finite input pair with that x; at or right of the last nudged x (never below the largest finite x) the value of the last finite input pair with the largest x |
| Interpolation.SortedClamps | app/models/axial.py:55-66 | the same clamping stated on the sorted pairs: the first sorted value on the left, the last on the right |
| Axial.SegmentCount | app/models/axial.py:23 | n is at least 10 and at least the request; it is one of the two |
| Axial.TargetLoad | app/models/axial.py:22 | (definition) the axial load, 0 when the key is absent |
| Axial.Area | app/models/axial.py:18 | (definition) A = pi D^2 / 4 |
| Axial.Perimeter | app/models/axial.py:19 | (definition) Pm = pi D |
| Axial.Zeros | app/models/axial.py:85 | n zeros |
| Axial.CurveAt | app/models/axial.py:113 | (definition) interp_clamped of a curve at a slip |
| Axial.SecantSlope | app/models/axial.py:126-131 | (definition) (t(x + ds) - t) / ds for a curve of more than one point, 0 otherwise; Slope computes it |
| Axial.Ahead | app/models/axial.py:128 | (definition) the slip x + ds at which the secant's far point is read (also axial.py:153 at the toe) |
| Axial.Secant | app/models/axial.py:129 | (definition) the secant slope (t2 - t1) / ds for ds != 0 (also axial.py:154 at the toe) |
| AxialRun.Newtons | app/models/axial.py:89 | (definition) the head load in newtons, P = 1000 P_kN |
| AxialSolver.CapRatio | app/models/axial.py:171 | (definition) the step scale max_step / max_comp for a non-zero largest component |
| Lateral.Unloaded | app/models/lateral.py:166 | (definition) a load case is unloaded when abs(H) < 1e-6 and abs(M) < 1e-9 |
| Axial.Direction | app/models/axial.py:133 | (definition) 1 for a non-negative slip direction, -1 otherwise |
| Axial.Stiffness | app/models/axial.py:121-123 | (definition) EA / dz^2 |
| Axial.Slip | app/models/axial.py:110 | (definition) abs(w[i] - w[i-1]) |
| Axial.Force | app/models/axial.py:114-115 | (definition) a stress in kPa times 1e3 times the perimeter or area it acts on, as in q_side, Q_toe (line 144) and the segment shear (line 189) |
| Axial.SignedTangent | app/models/axial.py:133 | (definition) a secant slope in kPa/m times 1e3 times the perimeter or area, signed by the slip direction, as in dq/dw and dQ/dw (line 158) |
| Axial.SideLoad | app/models/axial.py:110-115 | (definition) q_side = t(slip) 1e3 Pm |
| Axial.SideTangent | app/models/axial.py:125-133 | (definition) dq/dw = secant slope 1e3 Pm, signed by the slip direction |
| Axial.ToeLoad | app/models/axial.py:142-144 | (definition) Q_toe = q(abs w[n]) 1e3 A |
| Axial.ToeTangent | app/models/axial.py:150-158 | (definition) dQ/dw = secant slope 1e3 A, signed by w[n] |
| Axial.HeadResidual | app/models/axial.py:101 | (definition) EA (w1 - w0) / dz - P |
| Axial.InteriorResidual | app/models/axial.py:118 | (definition) EA (w[i+1] - 2 w[i] + w[i-1]) / dz^2 + q_side |
| Axial.ToeResidual | app/models/axial.py:146 | (definition) EA (w[n] - w[n-1]) / dz + Q_toe |
| Axial.ResidualAt | app/models/axial.py:100-146 | (definition) the head, interior or toe residual by row; AssembleSystem fills the array with it |
| Axial.JacobianAt | app/models/axial.py:98-159 | (definition) the Jacobian entry by row and column; JacobianTridiagonal and the row lemmas state its rows |
| Axial.ShaftCurve | app/models/axial.py:107-108 | an empty profile gives the point (0, 0); otherwise the t-z curve of the layer at that depth |
| Axial.TipCurve | app/models/axial.py:139-140 | (0, 0) for an empty profile; fails exactly when the toe layer's q_max fails |
| Axial.SecantWidth | app/models/axial.py:127 | ds is the larger of 1e-8 and 5 % of the curve's displacement span: at least both, and equal to one of them |
| Axial.BarOf | app/models/axial.py:18-26 | n = max(10, n_segments) segments, nodes from 0 at the head to L at the toe, dz = 0 exactly when L = 0 |
| Axial.NodeCurve | app/models/axial.py:107-108 | the node's t-z curve has matching lists |
| Axial.JacobianTridiagonal | app/models/axial.py:97-159 | every entry more than one off the diagonal is zero |
| Axial.JacobianHeadRow | app/models/axial.py:101-103 | head row: -EA/dz and EA/dz, zero elsewhere |
| Axial.JacobianInteriorRow | app/models/axial.py:120-136 | interior row: the bar stencil EA/dz² (1, -2, 1) plus the soil secant on the diagonal and minus it below; the row sums to zero |
| Axial.JacobianToeRow | app/models/axial.py:146-159 | toe row: -EA/dz, and EA/dz plus the q-z secant dQ/dw |
| Axial.Matrix | app/models/axial.py:98 | the Jacobian is square of size n + 1 |
| Axial.MatrixEndRows | app/models/axial.py:101-103 | the head and toe rows of the matrix hold their entries and zeros elsewhere |
| Axial.MatrixInteriorRow | app/models/axial.py:121-136 | an interior row holds the stencil and zeros off it |
| Axial.FillInteriorRow | app/models/axial.py:121-136 | one interior row of the array becomes the Jacobian's row |
| Axial.AddStencil | app/models/axial.py:121-136 | the five in-place updates fill row i with the stencil and touch nothing else |
| Axial.Slope | app/models/axial.py:126-131 | the imperative secant equals SecantSlope |
| Axial.InteriorNode | app/models/axial.py:107-136 | an interior node's residual and soil tangent |
| Axial.ToeNode | app/models/axial.py:139-158 | the toe residual and tangent dQ_toe/dw |
| Axial.AssembleSystem | app/models/axial.py:97-159 | the filled arrays are exactly the Jacobian and the residual vector |
| Axial.FillToe | app/models/axial.py:139-159 | completes the last row and residual |
| Axial.FillInterior | app/models/axial.py:106-136 | the interior loop fills rows 1..n-1 and their residuals |
| Axial.SetResidual | app/models/axial.py:118 | stores one residual, the others unchanged |
| Axial.FillHeadRow | app/models/axial.py:101-103 | row 0 becomes the head row |
| Axial.FillToeRow | app/models/axial.py:147-159 | row n becomes the toe row |
| AxialSolver.ScaledBy | app/models/axial.py:171 | every component multiplied by the factor |
| AxialSolver.CapValues | app/models/axial.py:169-171 | a step already within 0.5 mm is left unchanged |
| AxialSolver.CapStep | app/models/axial.py:169-171 | a non-finite step is left unchanged; a finite one stays finite |
| AxialSolver.CapFactor | app/models/axial.py:171 | the scale factor is positive and brings the largest component to 0.5 mm |
| AxialSolver.ScaleOne | app/models/axial.py:171 | scaling keeps each component within 0.5 mm and keeps its sign |
| AxialSolver.CapBound | app/models/axial.py:169-171 | after capping every component is within 0.5 mm |
| AxialSolver.CapSign | app/models/axial.py:169-171 | capping keeps each component's sign |
| AxialSolver.CapTop | app/models/axial.py:169-171 | an oversize step is scaled so its largest component is exactly 0.5 mm |
| AxialSolver.CapInPlace | app/models/axial.py:169-171 | the in-place scaling leaves CapStep of the old step |
| AxialSolver.Rhs | app/models/axial.py:163 | the right-hand side has one entry per node |
| AxialSolver.RawStep | app/models/axial.py:162-166 | the solved increment has one entry per node |
| AxialSolver.Step | app/models/axial.py:162-171 | the capped increment has one entry per node |
| AxialSolver.StepBounded | app/models/axial.py:169-171 | a finite capped increment moves no node by more than 0.5 mm |
| AxialSolver.Add | app/models/axial.py:173 | w += dw: each node moves by its increment |
| AxialSolver.Newton | app/models/axial.py:96-175 | the iteration keeps the node count and stops at once with no fuel |
| AxialSolver.NewtonBounded | app/models/axial.py:96-175 | after k iterations no node has moved more than k × 0.5 mm |
| AxialSolver.AddOneStep | app/models/axial.py:173 | adding a capped increment is one step of at most 0.5 mm per node |
| AxialSolver.WithinOneMore | app/models/axial.py:173 | one more capped step adds at most 0.5 mm to the travel bound |
| AxialSolver.AddInPlace | app/models/axial.py:173 | the in-place sum leaves Add of the old profile |
| AxialSolver.Snapshot | app/models/axial.py:163 | the array read back is the Jacobian |
| AxialSolver.Negated | app/models/axial.py:163 | -residual read from the array is the right-hand side |
| AxialSolver.Increment | app/models/axial.py:97-171 | one assembly, solve and cap yields Step |
| AxialSolver.Iterate | app/models/axial.py:97-175 | a non-finite increment leaves w unchanged; a finite one moves w by it and reports whether every component was below 1 micron |
| AxialSolver.NewtonUnfold | app/models/axial.py:96-175 | one Newton iteration followed by the rest equals the whole |
| AxialSolver.NewtonSolve | app/models/axial.py:96-175 | the in-place loop succeeds exactly when Newton does, and leaves its result |
| AxialRun.CappedAt | app/models/axial.py:88-179 | a capped level keeps the node count and moves the head at most 40 mm |
| AxialRun.NewtonLevel | app/models/axial.py:89-175 | (definition) the warm-started Newton loop at P = P_kN 1e3 with 80 iterations; NewtonLevelCapped bounds it |
| AxialRun.NewtonLevelCapped | app/models/axial.py:88-179 | the Newton solve of one load level is capped |
| AxialRun.LoadSteps | app/models/axial.py:88-179 | one settlement per load level; the final profile keeps the node count |
| AxialRun.LoadStepsLast | app/models/axial.py:177-179 | the final profile exists exactly when every settlement is finite, and the last settlement is its head value |
| AxialRun.LoadStepsPoisonSticks | app/models/axial.py:88-179 | once a level records NaN, every later level does |
| AxialRun.LoadStepsBounded | app/models/axial.py:88-179 | the head settlement at level k is within (k + 1) × 40 mm of the start |
| AxialRun.ResumeSome | app/models/axial.py:177-179 | a converged level moves its head settlement to the recorded list and warm-starts the next |
| AxialRun.ResumeNone | app/models/axial.py:88-179 | a failed level records NaN for it and every later level |
| AxialRun.SolveLevel | app/models/axial.py:89-175 | the array solve of one level equals NewtonLevel |
| AxialRun.AdvanceLevel | app/models/axial.py:88-179 | one pass of the load loop keeps the loop invariant, or ends with the stepped result |
| AxialRun.StepLoads | app/models/axial.py:82-179 | the imperative load loop equals Stepped |
| AxialRun.ProgressStart | app/models/axial.py:84-85 | zero settlements and no recorded levels satisfy the loop invariant |
| AxialRun.FromRestResume | app/models/axial.py:84-88 | stepping from rest is resuming with nothing recorded |
| AxialRun.ProgressDone | app/models/axial.py:177-179 | at the end of the loop the recorded settlements are the stepped result |
| AxialRun.SegmentShears | app/models/axial.py:182-189 | one shear force per segment |
| AxialRun.ShearPerSegment | app/models/axial.py:182-189 | the array loop leaves SegmentShears |
| AxialRun.PutShear | app/models/axial.py:189 | stores one segment's shear, the others unchanged |
| AxialRun.SegmentShearAt | app/models/axial.py:184-189 | a segment's shaft force at its mid depth |
| AxialRun.SegmentShear | app/models/axial.py:184-189 | (definition) t(slip) 1e3 Pm dz with the t-z curve of the layer at the segment's mid depth |
| AxialRun.MidDepth | app/models/axial.py:184 | (definition) the depth z[i] + 0.5 dz of the middle of segment i |
| AxialRun.CumulativeShear | app/models/axial.py:191 | starts at 0 and each entry adds one segment's shear |
| AxialRun.SumSnoc | app/models/axial.py:191 | the sum of a list extended by x grows by x |
| AxialRun.CumulativeShearIsSum | app/models/axial.py:191 | entry i is the sum of the first i segment shears |
| AxialRun.CumulativePrefix | app/models/axial.py:191 | one entry is the sum of its prefix |
| AxialRun.CumulativeShearMonotone | app/models/axial.py:191 | with non-negative segment shears the cumulative shear never decreases |
| AxialRun.Stepped | app/models/axial.py:82-179 | one settlement per level; the final profile fits the bar; level k settles at most (k + 1) × 40 mm |
| AxialRun.FromRest | app/models/axial.py:84-179 | from zero settlements, level k records at most (k + 1) × 40 mm |
| AxialRun.Trivial | app/models/axial.py:70-80 | (definition) one zero load and settlement, zero plots, zero toe force; TrivialLoad states it |
| AxialRun.Report | app/models/axial.py:181-208 | (definition) the result dictionary; ReportShape, ReportPlots and ReportPoisoned state it |
| AxialRun.Analysis | app/models/axial.py:12-208 | (definition) axial_analysis as a value; AnalysisErrors, AnalysisStepped, AnalysisSchedule and AnalysisSettlementBound state it |
| AxialRun.Plots | app/models/axial.py:181-202 | the imperative plots equal Report |
| AxialRun.AxialAnalysis | app/models/axial.py:12-208 | the imperative analysis equals Analysis |
| AxialRun.TrivialLoad | app/models/axial.py:70-80 | a target <= 0 returns one zero load and settlement, zero plots and zero toe resistance |
| AxialRun.AnalysisErrors | app/models/axial.py:102-140 | with a positive target, L = 0 fails with ZeroDivisionError, raised by `-EA / dz` at line 102; otherwise failure is exactly the toe curve's failure at lines 139-140, with its error |
| AxialRun.AnalysisStepped | app/models/axial.py:82-208 | a successful run is the report of the stepped loads on the pile's bar |
| AxialRun.AnalysisSchedule | app/models/axial.py:82-83 | the ten load levels are linspace(0, target, 10), the settlements one per level, the depths linspace(0, L, n + 1) |
| AxialRun.AnalysisSettlementBound | app/models/axial.py:88-179 | the head settlement reported at level k is at most (k + 1) × 40 mm |
| AxialRun.ReportShape | app/models/axial.py:197-208 | the result carries the loads, the settlements and the node depths |
| AxialRun.ReportPlots | app/models/axial.py:181-202 | the plotted profile is the final one; the cumulative shear is finite, grows by each segment's force and ends at their sum; the toe force is the q-z resistance at the toe slip |
| AxialRun.ReportPoisoned | app/models/axial.py:181-202 | a non-finite final profile gives NaN profile, shear after the head and toe force |
| LateralOps.DotZero | app/models/lateral.py:68-69 | a zero row has zero dot product with any vector |
| LateralOps.Dot | app/models/lateral.py:68-69 | (definition) the dot product of two rows |
| LateralOps.ScaleRow | app/models/lateral.py:102 | EI * D[i, :]: each entry multiplied by the factor, same length |
| LateralOps.Unit | app/models/lateral.py:86-87 | the unit row e_k of length n: 1 at k and 0 elsewhere |
| LateralOps.D2Coef | app/models/lateral.py:57-60 | (definition) 1, -2, 1 on interior rows of D2, zero elsewhere |
| LateralOps.D1Coef | app/models/lateral.py:64-66 | (definition) -0.5, 0.5 on interior rows of D1, zero elsewhere |
| LateralOps.Slope | app/models/lateral.py:95 | (definition) (y1 - y0) / dz |
| LateralOps.Load | app/models/lateral.py:103 | (definition) -EI (row . y) |
| LateralOps.Column | app/models/lateral.py:68-69 | a column has n entries |
| LateralOps.MatVec | app/models/lateral.py:151 | the product has n entries |
| LateralOps.MatMul | app/models/lateral.py:68-69 | the product of two n × n matrices is n × n |
| LateralOps.MatMulZeroRow | app/models/lateral.py:68-69 | a zero row of the left factor gives a zero row of the product |
| LateralOps.MatVecZeroRow | app/models/lateral.py:218-219 | a zero matrix row gives a zero product entry |
| LateralOps.ScaleZeroRow | app/models/lateral.py:102 | a scaled zero row is zero |
| LateralOps.D2Mat | app/models/lateral.py:53-61 | D2 is n × n |
| LateralOps.D1Mat | app/models/lateral.py:63-67 | D1 is n × n |
| LateralOps.D3Mat | app/models/lateral.py:68 | D3 = D1 D2 is n × n |
| LateralOps.D4Mat | app/models/lateral.py:69 | D4 = D2 D2 is n × n |
| LateralOps.InteriorStencils | app/models/lateral.py:57-67 | interior rows of D2 are (1, -2, 1)/dz² and of D1 (-1/2, 1/2)/dz, zero elsewhere |
| LateralOps.BoundaryRowsZero | app/models/lateral.py:53-69 | rows 0 and n-1 of D2, D1, D3 and D4 are zero |
| LateralOps.Rows | app/models/lateral.py:53 | reading an n × n array gives a square matrix |
| LateralOps.FillStencilRow | app/models/lateral.py:57-60 | one interior stencil row is set, others unchanged |
| LateralOps.FillStencil | app/models/lateral.py:57-66 | the loop leaves the unscaled stencil in every interior row and zeros elsewhere |
| LateralOps.DivideInPlace | app/models/lateral.py:61 | every entry divided by the divisor |
| LateralOps.FiniteDiffMats | app/models/lateral.py:48-70 | the arrays built equal D2, D3 and D4 |
| LateralOps.SlopeRow | app/models/lateral.py:92-94 | the head-slope row has n entries |
| LateralOps.HeadRows | app/models/lateral.py:84-95 | the head rows replaced keep the matrix square |
| LateralOps.TipRows | app/models/lateral.py:98-108 | the tip rows replaced keep the matrix square |
| LateralOps.BoundaryRows | app/models/lateral.py:72-110 | the boundary-replaced matrix is square |
| LateralOps.HeadRhs | app/models/lateral.py:84-95 | one head right-hand side per node |
| LateralOps.TipRhs | app/models/lateral.py:98-108 | one tip right-hand side per node |
| LateralOps.BoundaryRhs | app/models/lateral.py:72-110 | one boundary right-hand side per node |
| LateralOps.BoundaryFrame | app/models/lateral.py:72-110 | rows not replaced by a boundary condition keep the original matrix row and a zero right-hand side |
| LateralOps.FixedHeadRows | app/models/lateral.py:84-95 | fixed head: row 0 is the unit row with rhs -y0 for every n >= 1; for n >= 2 row 1 is the slope row with rhs -(y1 - y0)/dz |
| LateralOps.TipBoundary | app/models/lateral.py:98-108 | free tip: row n-1 is EI D2[n-1] and row n-2 is EI D3[n-2], each with rhs -EI (D y) |
| LateralOps.TipMomentRowVanishes | app/models/lateral.py:98-103 | with finite_diff_mats' D2 the tip moment row and its rhs are zero |
| LateralOps.ApplyBoundaryConditions | app/models/lateral.py:72-110 | the in-place row replacement leaves BoundaryRows of the old matrix and returns BoundaryRhs |
| LateralOps.SetRow | app/models/lateral.py:86-107 | replaces one row and no other |
| Lateral.Reaction | app/models/lateral.py:145 | a finite reaction is kept; any non-finite one becomes 0 |
| Lateral.Tangent | app/models/lateral.py:146-147 | the tangent lies in [1e3, 1e9]; finite values are clipped; NaN and -inf become 1e5; +inf becomes 1e9 |
| Lateral.Reactions | app/models/lateral.py:141-145 | one reaction per node |
| Lateral.Tangents | app/models/lateral.py:141-147 | every tangent lies in [1e3, 1e9] |
| Lateral.SampleSprings | app/models/lateral.py:141-147 | the sampling loop yields the sanitised reactions and tangents |
| Lateral.BaseMatrix | app/models/lateral.py:150 | EI D4 - diag(k) is square |
| Lateral.BaseResidual | app/models/lateral.py:151 | one residual per node |
| Lateral.Masked | app/models/lateral.py:157-158 | one residual per node |
| Lateral.MaskedRows | app/models/lateral.py:157-158 | rows not replaced keep their PDE residual; where the boundary rhs is non-zero it replaces the residual |
| Lateral.TipResidualKept | app/models/lateral.py:101-103 | with the zero tip moment rhs, the tip keeps the PDE residual |
| Lateral.HeadLoads | app/models/lateral.py:162-176 | the head-load injection keeps the system square |
| Lateral.HeadLoadsFrame | app/models/lateral.py:162-176 | rows from 2 on are unchanged; row 1 is unchanged unless a head moment is applied |
| Lateral.HeadPinned | app/models/lateral.py:166-169 | an unloaded head makes row 0 the unit row e_0 with rhs -y0 |
| Lateral.HeadRowsVanish | app/models/lateral.py:171-176 | with D3's zero head row a loaded free head gives a zero row 0 with rhs H, and with a moment a zero row 1 with rhs M |
| Lateral.Regularized | app/models/lateral.py:180 | the regularised matrix is square |
| Lateral.RegularizedDiagonal | app/models/lateral.py:180 | only the diagonal changes, each by 1e-9 EI |
| Lateral.Ridge | app/models/lateral.py:180 | (definition) the ridge 1e-9 EI |
| Lateral.SystemAt | app/models/lateral.py:141-180 | the assembled system is square with one rhs entry per node |
| Lateral.Increment | app/models/lateral.py:183-187 | one increment component per node |
| Lateral.NewMatrix | app/models/lateral.py:150 | the new array holds the matrix |
| Lateral.InjectHeadLoads | app/models/lateral.py:162-176 | the in-place injection leaves HeadLoads of the old system |
| Lateral.Regularize | app/models/lateral.py:180 | the in-place ridge leaves Regularized of the old matrix |
| Lateral.NewtonIncrement | app/models/lateral.py:141-187 | the imperative assembly and solve equal Increment |
| Lateral.Relaxed | app/models/lateral.py:192 | one relaxed deflection per node |
| Lateral.Sanitized | app/models/lateral.py:197 | one sanitised deflection per node |
| Lateral.SanitizedIsIdentity | app/models/lateral.py:197 | nan_to_num of a finite deflection is that deflection, so y_new is y |
| Lateral.Iterate | app/models/lateral.py:139-208 | the deflection leaves the loop unchanged; converged holds exactly when the loop runs and the first increment passes the convergence test |
| Lateral.Decide | app/models/lateral.py:189-203 | (definition) the outcome of one increment: not finite, diverged, converged or go on, tested in the source's order |
| Lateral.Rotation | app/models/lateral.py:211-216 | one rotation per node |
| Lateral.RotationExactOnLines | app/models/lateral.py:211-216 | on a straight-line deflection every rotation is the exact slope |
| Lateral.Outputs | app/models/lateral.py:222 | one raw reaction per node |
| Lateral.ReportedEndsZero | app/models/lateral.py:218-221 | reported moment and shear are zero at the head and the tip |
| Lateral.StepResults | app/models/lateral.py:210-227 | (definition) rotation, moment EI D2 y, shear EI D3 y, reactions and the head values |
| Lateral.DegenerateResults | app/models/lateral.py:210-227 | (definition) the results for dz = 0: NaN rotation, moment and shear |
| Lateral.StepReport | app/models/lateral.py:210-227 | (definition) the results of one step for either spacing |
| Lateral.Reported | app/models/lateral.py:121-227 | (definition) what every load step reports; ReportedIsStepReport and DeflectionNeverAdvances state it |
| Lateral.InitialDeflection | app/models/lateral.py:130 | one initial deflection per node |
| Lateral.Grid | app/models/lateral.py:123 | n nodes |
| Lateral.Setup | app/models/lateral.py:121-127 | grid, spacing z[1] - z[0], EI and, for dz != 0, the finite-difference operators |
| Lateral.ReportedIsStepReport | app/models/lateral.py:121-130 | the set-up beam reports what Reported describes |
| Lateral.LateralAnalysis | app/models/lateral.py:112-237 | the imperative analysis equals Analysis |
| Lateral.Analysis | app/models/lateral.py:112-237 | (definition) lateral_analysis as a value; AnalysisErrors, StepsInOrder and ReportedHeadMomentZero state it |
| Lateral.RunLoads | app/models/lateral.py:135-231 | every step reports the initial profile's results and the head curve pairs each H with y0[0] |
| Lateral.LoadStep | app/models/lateral.py:136-231 | a load step ends where it started and reports its results |
| Lateral.StepsInOrder | app/models/lateral.py:224-229 | one result and one head-curve point per load step, in order; the head curve pairs H with the head deflection reported |
| Lateral.DeflectionNeverAdvances | app/models/lateral.py:192-205 | every step reports the initial profile as its deflection |
| Lateral.AnalysisErrors | app/models/lateral.py:121-124 | a negative node count raises ValueError, 0 or 1 nodes IndexError, and 2 or more succeed |
| Lateral.ReportedHeadMomentZero | app/models/lateral.py:218-221 | for L != 0, every step reports zero head moment and shear, whatever M and H |

## Left out

- Floating point: values are exact reals. Rounding, overflow and underflow are not modelled, including `exp` overflow in the sand bearing factor and in the initial lateral deflection. A non-finite value can appear only at the interfaces: spring outputs, solver outputs and interpolator inputs.
- The dense linear solve (`np.linalg.solve` with its `lstsq` fallback) is a function parameter. Its result is not constrained, so no property depends on Newton converging.
- The transcendental functions (`pow`, `exp`, `tan`, `tanh`, `sin`, `cos`, `sqrt`, `radians`) are uninterpreted parameters. Facts that depend on their values, such as the sign of tan(phi - 5 deg), are not proved.
- The application wrappers (`app/ui`, `app/io`, `app/core`, `main.py`) are not part of this model. The warning printed for a non-positive su is left out (console output).
- Dictionary inputs with missing keys (a KeyError) are not modelled: layers and piles are records with every field present.
- Axial: once an increment is not finite the model stops the level (None). It records NaN for that level and every later one, and NaN plots. The source keeps iterating on the NaN values instead, and its reported arrays differ from the model's in three ways. A non-finite increment met on the 80th iteration is still added, so a NaN only in components other than the head leaves the recorded head settlement finite. The cumulative shear stays finite up to the first segment a NaN slip reaches. `lstsq` on a NaN Jacobian may raise LinAlgError, which the model never raises.
- Axial: a failing toe curve (an unknown soil type or a zero sand divisor) is evaluated once, before the load loop. It fails the analysis with the same exception the first Newton iteration raises.
- Curves.TipPeak: for an unknown soil type the model names the failure UnboundLocalError. That is exact for CPython 3.12 and later, where the comprehension at curves.py:85 is inlined. Earlier versions raise NameError from the comprehension's closure. Either way the call fails.
- Axial: `EA / dz**2` is written `EA / (dz * dz)`, which is the same value over the reals.
- Axial.NodeCurve, Axial.Matrix: state only shapes. The node curve's content is stated by ShaftCurve, and the matrix entries by MatrixEndRows, MatrixInteriorRow and the Jacobian lemmas.
- AxialSolver.Rhs, AxialSolver.RawStep, AxialSolver.Step: state only the length of the increment, because the solver is a parameter. Step's cap is stated by StepBounded and the Cap lemmas.
- AxialSolver.Newton: states the node count and the zero-fuel case. Its travel bound is NewtonBounded.
- Lateral: with L = 0 (dz = 0) numpy yields NaN/inf operators. The model runs no iteration and reports NaN rotation, moment and shear with the initial deflection.
- Lateral: `nan_to_num` of the assembled A and r is the identity over reals and is not modelled separately. `D2 /= dz**2` is two divisions by dz.
- Lateral.BaseMatrix, Lateral.BaseResidual, Lateral.Masked, Lateral.HeadLoads, Lateral.Regularized, Lateral.SystemAt, Lateral.Increment, Lateral.Relaxed, Lateral.Sanitized, Lateral.Rotation, Lateral.Reactions, Lateral.Outputs, Lateral.InitialDeflection: their own contracts state only shapes. What else is proved about them: Masked by MaskedRows and TipResidualKept; HeadLoads by HeadLoadsFrame, HeadPinned and HeadRowsVanish; Regularized by RegularizedDiagonal; Sanitized, on finite deflections only, by SanitizedIsIdentity; Increment by NewtonIncrement and Iterate. Rotation is stated only on straight-line deflections (RotationExactOnLines), and Reactions only through the per-node Reaction contract. BaseMatrix (EI D4 - diag k), BaseResidual (p - EI D4 y), SystemAt, Relaxed (y + relax dy), Outputs and InitialDeflection have no content property beyond their defining expressions.
- LateralOps.D2Mat, LateralOps.D1Mat, LateralOps.D3Mat, LateralOps.D4Mat, LateralOps.HeadRows, LateralOps.TipRows, LateralOps.BoundaryRows, LateralOps.HeadRhs, LateralOps.TipRhs, LateralOps.BoundaryRhs, LateralOps.MatVec, LateralOps.MatMul, LateralOps.Column, LateralOps.SlopeRow: their own contracts state only shapes. Their entries are stated by InteriorStencils, BoundaryRowsZero, BoundaryFrame, FixedHeadRows and TipBoundary.
- Lateral: the convergence flag is computed by Iterate and, as in the source, dropped.
- The lateral p-y spring passed to `lateral_analysis` is a parameter; it is not tied to the p-y curve generator.
