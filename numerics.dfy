/** Shared numeric vocabulary: abstracted IEEE doubles, the Python errors the
    core can raise, the library functions it treats as opaque, and the small
    NumPy reductions (linspace, max-abs, nan_to_num, clip) it relies on. */
module Numerics {

  /** A double abstracted to its finiteness: a finite double is its exact real. */
  datatype Float = Fin(v: real) | NaN | PosInf | NegInf {
    predicate IsFinite() { Fin? }
  }

  /** The Python exceptions that escape from the core. */
  datatype PyError = ZeroDivisionError | ValueError | UnboundLocalError | IndexError | TypeError

  datatype Result<T> = Ok(value: T) | Err(error: PyError)

  datatype Option<T> = None | Some(value: T)

  /** The transcendental library functions, left uninterpreted: every property
      proved holds whatever values they return. */
  datatype MathLib = MathLib(
    pow: (real, real) -> real,
    exp: real -> real,
    sin: real -> real,
    cos: real -> real,
    tan: real -> real,
    tanh: real -> real,
    sqrt: real -> real,
    radians: real -> real)

  /** The double nearest to pi (math.pi and np.pi), written out exactly. */
  const PI: real := 3.141592653589793115997963468544185161590576171875

  function Abs(x: real): real { if x < 0.0 then -x else x }

  /** Python's built-in max(a, b) and min(a, b) on two floats. */
  function Max(a: real, b: real): real { if b > a then b else a }
  function Min(a: real, b: real): real { if b < a then b else a }

  function Fins(s: seq<real>): (r: seq<Float>)
    ensures |r| == |s| && forall i :: 0 <= i < |s| ==> r[i] == Fin(s[i])
  {
    seq(|s|, i requires 0 <= i < |s| => Fin(s[i]))
  }

  predicate AllFinite(s: seq<Float>) { forall i :: 0 <= i < |s| ==> s[i].Fin? }

  function Values(s: seq<Float>): (r: seq<real>)
    requires AllFinite(s)
    ensures |r| == |s| && forall i :: 0 <= i < |s| ==> s[i] == Fin(r[i])
  {
    seq(|s|, i requires 0 <= i < |s| => s[i].v)
  }

  /** np.nan_to_num(x, nan=.., posinf=.., neginf=..) on one element. */
  function NanToNum(x: Float, nan: real, posinf: real, neginf: real): (r: real)
    ensures x.Fin? ==> r == x.v
    ensures x.NaN? ==> r == nan
    ensures x.PosInf? ==> r == posinf
    ensures x.NegInf? ==> r == neginf
  {
    match x
    case Fin(v) => v
    case NaN => nan
    case PosInf => posinf
    case NegInf => neginf
  }

  /** np.clip(x, lo, hi) on one element. */
  function Clip(x: real, lo: real, hi: real): (r: real)
    requires lo <= hi
    ensures lo <= r <= hi
    ensures lo <= x <= hi ==> r == x
  {
    if x < lo then lo else if x > hi then hi else x
  }

  /** np.max(np.abs(s)) for a non-empty vector of finite values. */
  function MaxAbs(s: seq<real>): (r: real)
    requires |s| > 0
    ensures forall i :: 0 <= i < |s| ==> Abs(s[i]) <= r
  {
    if |s| == 1 then Abs(s[0])
    else
      var rest := MaxAbs(s[1..]);
      assert forall i :: 1 <= i < |s| ==> s[i] == s[1..][i - 1];
      if Abs(s[0]) > rest then Abs(s[0]) else rest
  }

  /** The maximum magnitude is that of some element. */
  lemma {:induction false} MaxAbsAttained(s: seq<real>)
    requires |s| > 0
    ensures exists k :: 0 <= k < |s| && Abs(s[k]) == MaxAbs(s)
  {
    if |s| > 1 && Abs(s[0]) <= MaxAbs(s[1..]) {
      MaxAbsAttained(s[1..]);
      var j :| 0 <= j < |s[1..]| && Abs(s[1..][j]) == MaxAbs(s[1..]);
      assert Abs(s[j + 1]) == MaxAbs(s);
    } else {
      assert Abs(s[0]) == MaxAbs(s);
    }
  }

  /** np.linspace(start, stop, num): num evenly spaced values, the last one stop. */
  function Linspace(start: real, stop: real, num: nat): (r: seq<real>)
    ensures |r| == num
    ensures num >= 1 ==> r[0] == start
    ensures num >= 2 ==> r[num - 1] == stop
    ensures num >= 2 ==> forall i :: 0 <= i < num - 1 ==>
              r[i + 1] - r[i] == (stop - start) / ((num - 1) as real)
  {
    if num == 0 then []
    else if num == 1 then [start]
    else
      var step := (stop - start) / ((num - 1) as real);
      var r := seq(num, i requires 0 <= i < num => start + (i as real) * step);
      assert r[num - 1] == stop by {
        assert ((num - 1) as real) * step == stop - start;
      }
      r
  }
}
