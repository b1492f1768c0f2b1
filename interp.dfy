/** The axial solver's robust interpolator (interp_clamped): drop pairs with a
    non-finite coordinate, stable-sort by x, nudge every non-increasing x just
    above its predecessor, then interpolate linearly with clamping to the end
    values (np.interp with left = y[0], right = y[-1]). */
module Interpolation {
  import opened Numerics

  /** The nudge added to a non-increasing abscissa. */
  const NudgeEps: real := 0.000000000001

  type Pair = (real, real)

  function Xs(s: seq<Pair>): (r: seq<real>)
    ensures |r| == |s| && forall i :: 0 <= i < |s| ==> r[i] == s[i].0
  {
    seq(|s|, i requires 0 <= i < |s| => s[i].0)
  }

  function Ys(s: seq<Pair>): (r: seq<real>)
    ensures |r| == |s| && forall i :: 0 <= i < |s| ==> r[i] == s[i].1
  {
    seq(|s|, i requires 0 <= i < |s| => s[i].1)
  }

  predicate BothFinite(x: Float, y: Float) { x.Fin? && y.Fin? }

  /** x[m], y[m] with m = isfinite(x) & isfinite(y): the finite pairs, in order. */
  function FinitePairs(xs: seq<Float>, ys: seq<Float>): (r: seq<Pair>)
    requires |xs| == |ys|
    ensures |r| <= |xs|
    ensures r == [] <==> forall i :: 0 <= i < |xs| ==> !BothFinite(xs[i], ys[i])
  {
    if xs == [] then []
    else
      var rest := FinitePairs(xs[1..], ys[1..]);
      assert forall i :: 1 <= i < |xs| ==> xs[i] == xs[1..][i - 1] && ys[i] == ys[1..][i - 1];
      if BothFinite(xs[0], ys[0]) then [(xs[0].v, ys[0].v)] + rest else rest
  }

  /** Every kept pair comes from some position where both coordinates are finite. */
  lemma {:induction false} FinitePairsFrom(xs: seq<Float>, ys: seq<Float>)
    requires |xs| == |ys|
    ensures forall k :: 0 <= k < |FinitePairs(xs, ys)| ==>
              exists i :: 0 <= i < |xs| && xs[i] == Fin(FinitePairs(xs, ys)[k].0) && ys[i] == Fin(FinitePairs(xs, ys)[k].1)
  {
    if xs != [] {
      FinitePairsFrom(xs[1..], ys[1..]);
      var rest := FinitePairs(xs[1..], ys[1..]);
      var r := FinitePairs(xs, ys);
      forall k | 0 <= k < |r|
        ensures exists i :: 0 <= i < |xs| && xs[i] == Fin(r[k].0) && ys[i] == Fin(r[k].1)
      {
        if BothFinite(xs[0], ys[0]) && k == 0 {
          assert xs[0] == Fin(r[0].0) && ys[0] == Fin(r[0].1);
        } else {
          var k' := if BothFinite(xs[0], ys[0]) then k - 1 else k;
          assert r[k] == rest[k'];
          var i :| 0 <= i < |xs| - 1 && xs[1..][i] == Fin(rest[k'].0) && ys[1..][i] == Fin(rest[k'].1);
          assert xs[i + 1] == Fin(r[k].0) && ys[i + 1] == Fin(r[k].1);
        }
      }
    } else {
      assert FinitePairs(xs, ys) == [];
    }
  }

  /** With no non-finite value the filter keeps every pair. */
  lemma {:induction false} FinitePairsAll(xs: seq<Float>, ys: seq<Float>)
    requires |xs| == |ys| && AllFinite(xs) && AllFinite(ys)
    ensures |FinitePairs(xs, ys)| == |xs|
    ensures forall i :: 0 <= i < |xs| ==> FinitePairs(xs, ys)[i] == (xs[i].v, ys[i].v)
  {
    if xs != [] {
      assert AllFinite(xs[1..]) && AllFinite(ys[1..]);
      FinitePairsAll(xs[1..], ys[1..]);
      var rest := FinitePairs(xs[1..], ys[1..]);
      assert FinitePairs(xs, ys) == [(xs[0].v, ys[0].v)] + rest;
    }
  }

  /** The filter distributes over concatenation: it keeps pairs in the order
      they come. */
  lemma {:induction false} FinitePairsAppend(a: seq<Float>, b: seq<Float>, c: seq<Float>, d: seq<Float>)
    requires |a| == |b| && |c| == |d|
    ensures FinitePairs(a + c, b + d) == FinitePairs(a, b) + FinitePairs(c, d)
  {
    if a == [] {
      assert a + c == c && b + d == d;
    } else {
      assert (a + c)[1..] == a[1..] + c && (b + d)[1..] == b[1..] + d;
      assert (a + c)[0] == a[0] && (b + d)[0] == b[0];
      FinitePairsAppend(a[1..], b[1..], c, d);
    }
  }

  /** Every position whose coordinates are both finite is kept, at the index
      given by the number of finite pairs before it. */
  lemma FinitePairsInOrder(xs: seq<Float>, ys: seq<Float>)
    requires |xs| == |ys|
    ensures forall i :: 0 <= i < |xs| && BothFinite(xs[i], ys[i]) ==>
              |FinitePairs(xs[..i], ys[..i])| < |FinitePairs(xs, ys)| &&
              FinitePairs(xs, ys)[|FinitePairs(xs[..i], ys[..i])|] == (xs[i].v, ys[i].v)
  {
    forall i | 0 <= i < |xs| && BothFinite(xs[i], ys[i])
      ensures |FinitePairs(xs[..i], ys[..i])| < |FinitePairs(xs, ys)|
      ensures FinitePairs(xs, ys)[|FinitePairs(xs[..i], ys[..i])|] == (xs[i].v, ys[i].v)
    {
      assert xs == xs[..i] + xs[i..] && ys == ys[..i] + ys[i..];
      FinitePairsAppend(xs[..i], ys[..i], xs[i..], ys[i..]);
      assert xs[i..][0] == xs[i] && ys[i..][0] == ys[i];
      assert FinitePairs(xs[i..], ys[i..])[0] == (xs[i].v, ys[i].v);
    }
  }

  // ------------------------------------------------------------ stable sort

  predicate SortedByX(s: seq<Pair>) {
    forall i, j :: 0 <= i <= j < |s| ==> s[i].0 <= s[j].0
  }

  /** Places p after every element whose x does not exceed p's. */
  function InsertByX(p: Pair, s: seq<Pair>): (r: seq<Pair>)
    ensures multiset(r) == multiset(s) + multiset{p}
    ensures |r| == |s| + 1
  {
    if s == [] then [p]
    else if p.0 < s[0].0 then [p] + s
    else
      assert s == [s[0]] + s[1..];
      [s[0]] + InsertByX(p, s[1..])
  }

  predicate XAtLeast(s: seq<Pair>, b: real) {
    forall i :: 0 <= i < |s| ==> b <= s[i].0
  }

  /** Inserting a pair whose x is at least b among pairs whose x is at least b. */
  lemma {:induction false} InsertAtLeast(p: Pair, s: seq<Pair>, b: real)
    requires XAtLeast(s, b) && b <= p.0
    ensures XAtLeast(InsertByX(p, s), b)
  {
    if s != [] && p.0 >= s[0].0 {
      InsertAtLeast(p, s[1..], b);
      var rest := InsertByX(p, s[1..]);
      assert InsertByX(p, s) == [s[0]] + rest;
    }
  }

  /** Inserting into a sorted sequence keeps it sorted. */
  lemma {:induction false} InsertSorted(p: Pair, s: seq<Pair>)
    requires SortedByX(s)
    ensures SortedByX(InsertByX(p, s))
  {
    if s != [] && p.0 >= s[0].0 {
      var rest := InsertByX(p, s[1..]);
      InsertSorted(p, s[1..]);
      InsertAtLeast(p, s[1..], s[0].0);
      ConsSorted(s[0], rest);
      assert [s[0]] + rest == InsertByX(p, s);
    }
  }

  /** A pair whose x does not exceed any x of a sorted sequence can lead it. */
  lemma ConsSorted(q: Pair, rest: seq<Pair>)
    requires SortedByX(rest) && XAtLeast(rest, q.0)
    ensures SortedByX([q] + rest)
  {
    var r := [q] + rest;
    forall i, j | 0 <= i <= j < |r| ensures r[i].0 <= r[j].0 {
      if i > 0 {
        assert r[i] == rest[i - 1] && r[j] == rest[j - 1];
      } else if j > 0 {
        assert r[j] == rest[j - 1];
      }
    }
  }

  /** argsort(x, kind="mergesort"): a stable sort by x, written as an
      insertion sort in which later pairs go after earlier pairs with equal x. */
  function StableSortByX(s: seq<Pair>): (r: seq<Pair>)
    ensures multiset(r) == multiset(s)
    ensures |r| == |s|
  {
    if s == [] then []
    else
      assert s == s[..|s| - 1] + [s[|s| - 1]];
      InsertByX(s[|s| - 1], StableSortByX(s[..|s| - 1]))
  }

  /** The sort returns a sorted permutation of its input. */
  lemma {:induction false} StableSortSorted(s: seq<Pair>)
    ensures SortedByX(StableSortByX(s))
    ensures |StableSortByX(s)| == |s|
  {
    var r := StableSortByX(s);
    assert |r| == |multiset(r)| == |multiset(s)| == |s|;
    if s != [] {
      StableSortSorted(s[..|s| - 1]);
      InsertSorted(s[|s| - 1], StableSortByX(s[..|s| - 1]));
    }
  }

  /** The pairs of s whose x equals v, in the order of s. */
  function WithX(s: seq<Pair>, v: real): (r: seq<Pair>)
    ensures |r| <= |s|
    ensures forall k :: 0 <= k < |r| ==> r[k].0 == v
  {
    if s == [] then []
    else
      var rest := WithX(s[1..], v);
      (if s[0].0 == v then [s[0]] else []) + rest
  }

  lemma {:induction false} WithXAppend(a: seq<Pair>, b: seq<Pair>, v: real)
    ensures WithX(a + b, v) == WithX(a, v) + WithX(b, v)
  {
    if a == [] {
      assert a + b == b;
    } else {
      assert (a + b)[1..] == a[1..] + b && (a + b)[0] == a[0];
      WithXAppend(a[1..], b, v);
    }
  }

  lemma {:induction false} WithXAbove(s: seq<Pair>, v: real)
    requires forall i :: 0 <= i < |s| ==> v < s[i].0
    ensures WithX(s, v) == []
  {
    if s != [] {
      WithXAbove(s[1..], v);
    }
  }

  /** Inserting p into a sorted sequence puts it after every pair with the
      same x. */
  lemma {:induction false} InsertWithX(p: Pair, t: seq<Pair>, v: real)
    requires SortedByX(t)
    ensures WithX(InsertByX(p, t), v) == WithX(t, v) + WithX([p], v)
  {
    if t == [] {
    } else if p.0 < t[0].0 {
      InsertWithXFront(p, t, v);
    } else {
      SortedTail(t);
      InsertWithX(p, t[1..], v);
      WithXCons(t[0], InsertByX(p, t[1..]), t[1..], p, v);
      assert InsertByX(p, t) == [t[0]] + InsertByX(p, t[1..]);
      assert [t[0]] + t[1..] == t;
    }
  }

  /** Prepending the same pair to both sides keeps an insertion equation. */
  lemma WithXCons(q: Pair, rest: seq<Pair>, tail: seq<Pair>, p: Pair, v: real)
    requires WithX(rest, v) == WithX(tail, v) + WithX([p], v)
    ensures WithX([q] + rest, v) == WithX([q] + tail, v) + WithX([p], v)
  {
    WithXAppend([q], rest, v);
    WithXAppend([q], tail, v);
  }

  lemma InsertWithXFront(p: Pair, t: seq<Pair>, v: real)
    requires SortedByX(t) && t != [] && p.0 < t[0].0
    ensures WithX(InsertByX(p, t), v) == WithX(t, v) + WithX([p], v)
  {
    assert InsertByX(p, t) == [p] + t;
    WithXAppend([p], t, v);
    if p.0 == v {
      WithXAbove(t, v);
    } else {
      assert WithX([p], v) == [];
    }
  }

  lemma SortedTail(t: seq<Pair>)
    requires SortedByX(t) && t != []
    ensures SortedByX(t[1..])
  {
    forall i, j | 0 <= i <= j < |t| - 1 ensures t[1..][i].0 <= t[1..][j].0 {
      assert t[1..][i] == t[i + 1] && t[1..][j] == t[j + 1];
    }
  }

  /** Stability: among pairs with equal x the sort keeps the input order. */
  lemma {:induction false} StableSortStable(s: seq<Pair>, v: real)
    ensures WithX(StableSortByX(s), v) == WithX(s, v)
  {
    if s != [] {
      var init, last := s[..|s| - 1], s[|s| - 1];
      StableSortSorted(init);
      InsertWithX(last, StableSortByX(init), v);
      StableSortStable(init, v);
      WithXAppend(init, [last], v);
      assert s == init + [last];
    }
  }

  /** A sorted permutation starts at the smallest x and ends at the largest. */
  lemma SortedEnds(f: seq<Pair>, s: seq<Pair>)
    requires |f| > 0 && multiset(f) == multiset(s) && SortedByX(s)
    ensures |s| == |f|
    ensures s[0].0 == SeqMin(Xs(f)) && s[|s| - 1].0 == SeqMax(Xs(f))
  {
    assert |s| == |multiset(s)| == |multiset(f)| == |f|;
    var lo, hi := SeqMin(Xs(f)), SeqMax(Xs(f));
    var i :| 0 <= i < |f| && Xs(f)[i] == lo;
    var k :| 0 <= k < |f| && Xs(f)[k] == hi;
    assert f[i] in multiset(s) && f[k] in multiset(s);
    var j :| 0 <= j < |s| && s[j] == f[i];
    var l :| 0 <= l < |s| && s[l] == f[k];
    assert s[0] in multiset(f) && s[|s| - 1] in multiset(f);
    var i0 :| 0 <= i0 < |f| && f[i0] == s[0];
    var i1 :| 0 <= i1 < |f| && f[i1] == s[|s| - 1];
    assert Xs(f)[i0] == s[0].0 && Xs(f)[i1] == s[|s| - 1].0;
  }

  // ----------------------------------------------------------------- nudge

  predicate StrictlyIncreasing(xs: seq<real>) {
    forall i, j :: 0 <= i < j < |xs| ==> xs[i] < xs[j]
  }

  /** The abscissae after the nudge loop: each x[k] that does not exceed the
      (already nudged) x[k-1] becomes x[k-1] + 1e-12. */
  function Nudged(xs: seq<real>): (r: seq<real>)
    ensures |r| == |xs|
    decreases |xs|
  {
    if |xs| <= 1 then xs
    else
      var pre := Nudged(xs[..|xs| - 1]);
      pre + [NudgeStep(pre[|pre| - 1], xs[|xs| - 1])]
  }

  /** One step of the nudge loop: x[k] given the nudged x[k-1]. */
  function NudgeStep(prev: real, x: real): (r: real)
    ensures prev < r && x <= r
    ensures prev < x ==> r == x
  {
    if x <= prev then prev + NudgeEps else x
  }

  /** After the nudge the abscissae increase strictly. */
  lemma {:induction false} NudgedIncreasing(xs: seq<real>)
    ensures StrictlyIncreasing(Nudged(xs))
    decreases |xs|
  {
    if |xs| > 1 {
      var pre := Nudged(xs[..|xs| - 1]);
      NudgedIncreasing(xs[..|xs| - 1]);
      var r := Nudged(xs);
      assert r == pre + [NudgeStep(pre[|pre| - 1], xs[|xs| - 1])];
      forall i, j | 0 <= i < j < |r| ensures r[i] < r[j] {
        if j < |r| - 1 {
          assert r[i] == pre[i] && r[j] == pre[j];
        } else if i < j - 1 {
          assert r[i] == pre[i] < pre[|pre| - 1];
        }
      }
    }
  }

  /** The nudge keeps the first abscissa and never moves one down. */
  lemma {:induction false} NudgedAbove(xs: seq<real>)
    ensures |xs| > 0 ==> Nudged(xs)[0] == xs[0]
    ensures forall i :: 0 <= i < |xs| ==> xs[i] <= Nudged(xs)[i]
    decreases |xs|
  {
    if |xs| > 1 {
      var init := xs[..|xs| - 1];
      var pre := Nudged(init);
      NudgedAbove(init);
      var r := Nudged(xs);
      assert r == pre + [NudgeStep(pre[|pre| - 1], xs[|xs| - 1])];
      forall i | 0 <= i < |xs| ensures xs[i] <= r[i] {
        if i < |xs| - 1 {
          assert init[i] == xs[i] && r[i] == pre[i];
        }
      }
    }
  }

  /** Already strictly increasing abscissae are left alone. */
  lemma {:induction false} NudgedIdentity(xs: seq<real>)
    requires StrictlyIncreasing(xs)
    ensures Nudged(xs) == xs
    decreases |xs|
  {
    if |xs| > 1 {
      var init := xs[..|xs| - 1];
      assert StrictlyIncreasing(init);
      NudgedIdentity(init);
      assert xs == init + [xs[|xs| - 1]];
    }
  }

  /** Nudging a prefix one longer adds one nudge step to the shorter prefix. */
  lemma NudgedPrefix(xs: seq<real>, k: nat)
    requires 1 <= k < |xs|
    ensures Nudged(xs[..k + 1]) == Nudged(xs[..k]) + [NudgeStep(Nudged(xs[..k])[k - 1], xs[k])]
  {
    var ys := xs[..k + 1];
    assert ys[..|ys| - 1] == xs[..k];
    assert ys[|ys| - 1] == xs[k];
  }

  /** Overwriting the first unprocessed entry moves it to the processed prefix. */
  lemma Splice(pre: seq<real>, xs: seq<real>, k: nat, v: real)
    requires |pre| == k < |xs|
    ensures (pre + xs[k..])[k := v] == pre + [v] + xs[k + 1..]
  {
    var l := (pre + xs[k..])[k := v];
    var r := pre + [v] + xs[k + 1..];
    forall j | 0 <= j < |l|
      ensures l[j] == r[j]
    {
      if j > k {
        assert l[j] == xs[k..][j - k] == xs[k + 1..][j - k - 1];
      }
    }
  }

  /** The nudge loop of interp_clamped, in place. */
  method NudgeInPlace(x: array<real>)
    modifies x
    ensures x[..] == Nudged(old(x[..]))
  {
    ghost var xs := x[..];
    if x.Length == 0 {
      return;
    }
    var k := 1;
    assert xs[..1] == [xs[0]];
    while k < x.Length
      invariant 1 <= k <= x.Length
      invariant x[..] == Nudged(xs[..k]) + xs[k..]
    {
      ghost var pre := Nudged(xs[..k]);
      ghost var before := x[..];
      assert x[k] == xs[k] && x[k - 1] == pre[k - 1];
      NudgedPrefix(xs, k);
      if x[k] <= x[k - 1] {
        x[k] := x[k - 1] + NudgeEps;
      }
      assert x[k] == NudgeStep(pre[k - 1], xs[k]);
      assert x[..] == before[k := x[k]];
      Splice(pre, xs, k, x[k]);
      assert x[..] == Nudged(xs[..k + 1]) + xs[k + 1..];
      k := k + 1;
    }
    assert xs[..x.Length] == xs;
  }

  // ------------------------------------------------------ clamped np.interp

  function SeqMin(s: seq<real>): (r: real)
    requires |s| > 0
    ensures forall i :: 0 <= i < |s| ==> r <= s[i]
    ensures r in s
  {
    if |s| == 1 then s[0]
    else
      var rest := SeqMin(s[1..]);
      assert forall i :: 1 <= i < |s| ==> s[i] == s[1..][i - 1];
      Min(s[0], rest)
  }

  function SeqMax(s: seq<real>): (r: real)
    requires |s| > 0
    ensures forall i :: 0 <= i < |s| ==> s[i] <= r
    ensures r in s
  {
    if |s| == 1 then s[0]
    else
      var rest := SeqMax(s[1..]);
      assert forall i :: 1 <= i < |s| ==> s[i] == s[1..][i - 1];
      Max(s[0], rest)
  }

  /** np.interp(xq, xs, ys, left=ys[0], right=ys[-1]) on strictly increasing xs. */
  function NpInterp(xq: real, xs: seq<real>, ys: seq<real>): real
    requires |xs| == |ys| >= 1
    requires StrictlyIncreasing(xs)
    decreases |xs|
  {
    if |xs| == 1 || xq <= xs[0] then ys[0]
    else if xq <= xs[1] then Chord(xs[0], xs[1], ys[0], ys[1], xq)
    else NpInterp(xq, xs[1..], ys[1..])
  }

  /** The linear interpolant between knots (x0, y0) and (x1, y1), at xq. */
  function Chord(x0: real, x1: real, y0: real, y1: real, xq: real): real
    requires x0 < x1
  {
    y0 + (xq - x0) * ((y1 - y0) / (x1 - x0))
  }

  /** The chord passes through its right knot. */
  lemma ChordEnd(x0: real, x1: real, y0: real, y1: real)
    requires x0 < x1
    ensures Chord(x0, x1, y0, y1, x1) == y1
  {
    var s := (y1 - y0) / (x1 - x0);
    assert s * (x1 - x0) == y1 - y0;
    assert (x1 - x0) * s == y1 - y0;
  }

  lemma DivBounds(a: real, b: real)
    requires 0.0 < a <= b
    ensures 0.0 < a / b <= 1.0
  {
    var t := a / b;
    assert t * b == a;
    assert t * b - a == 0.0;
    assert (t - 1.0) * b == a - b;
  }

  lemma NonNegProduct(a: real, b: real)
    requires a >= 0.0 && b >= 0.0
    ensures a * b >= 0.0
  {
  }

  lemma Complement(t: real, d: real)
    ensures d - t * d == (1.0 - t) * d
    ensures t * d - d == (1.0 - t) * (-d)
  {
  }

  lemma ScaleBetween(t: real, d: real)
    requires 0.0 <= t <= 1.0
    ensures Min(0.0, d) <= t * d <= Max(0.0, d)
  {
    Complement(t, d);
    if d >= 0.0 {
      NonNegProduct(t, d);
      NonNegProduct(1.0 - t, d);
    } else {
      NonNegProduct(t, -d);
      NonNegProduct(1.0 - t, -d);
      assert t * (-d) == -(t * d);
    }
  }

  /** A point on the chord between two knots lies between their values. */
  lemma ChordBetween(x0: real, x1: real, y0: real, y1: real, xq: real)
    requires x0 < xq <= x1
    ensures Min(y0, y1) <= Chord(x0, x1, y0, y1, xq) <= Max(y0, y1)
  {
    var a := xq - x0;
    var b := x1 - x0;
    var d := y1 - y0;
    DivBounds(a, b);
    var t := a / b;
    ScaleBetween(t, d);
    assert a * (d / b) == t * d by {
      assert a * (d / b) == (a * d) / b;
      assert t * d == (a * d) / b;
    }
  }

  /** np.interp stays within any bounds on its knot values. */
  lemma {:induction false} NpInterpBounded(xq: real, xs: seq<real>, ys: seq<real>, lo: real, hi: real)
    requires |xs| == |ys| >= 1
    requires StrictlyIncreasing(xs)
    requires forall i :: 0 <= i < |ys| ==> lo <= ys[i] <= hi
    ensures lo <= NpInterp(xq, xs, ys) <= hi
    decreases |xs|
  {
    if |xs| == 1 || xq <= xs[0] {
    } else if xq <= xs[1] {
      ChordBetween(xs[0], xs[1], ys[0], ys[1], xq);
      assert NpInterp(xq, xs, ys) == Chord(xs[0], xs[1], ys[0], ys[1], xq);
      assert lo <= ys[0] <= hi && lo <= ys[1] <= hi;
    } else {
      assert forall i :: 0 <= i < |ys| - 1 ==> ys[1..][i] == ys[i + 1];
      NpInterpBounded(xq, xs[1..], ys[1..], lo, hi);
    }
  }

  /** np.interp clamps to the first value at or left of the first knot and to
      the last value at or right of the last knot. */
  lemma {:induction false} NpInterpClamps(xq: real, xs: seq<real>, ys: seq<real>)
    requires |xs| == |ys| >= 1
    requires StrictlyIncreasing(xs)
    ensures xq <= xs[0] ==> NpInterp(xq, xs, ys) == ys[0]
    ensures xq >= xs[|xs| - 1] ==> NpInterp(xq, xs, ys) == ys[|ys| - 1]
    decreases |xs|
  {
    if |xs| > 1 && xq > xs[0] {
      if xq <= xs[1] {
        if |xs| > 2 {
          assert xs[1] < xs[|xs| - 1];
        } else if xq == xs[1] {
          ChordEnd(xs[0], xs[1], ys[0], ys[1]);
        }
      } else {
        NpInterpClamps(xq, xs[1..], ys[1..]);
      }
    }
  }

  /** np.interp passes through every knot. */
  lemma {:induction false} NpInterpKnot(xs: seq<real>, ys: seq<real>, k: nat)
    requires |xs| == |ys| >= 1
    requires StrictlyIncreasing(xs)
    requires k < |xs|
    ensures NpInterp(xs[k], xs, ys) == ys[k]
    decreases |xs|
  {
    var xq := xs[k];
    if k == 0 {
    } else if xq <= xs[1] {
      assert k == 1;
      ChordEnd(xs[0], xs[1], ys[0], ys[1]);
    } else {
      assert k >= 2;
      assert xs[1..][k - 1] == xq;
      NpInterpKnot(xs[1..], ys[1..], k - 1);
    }
  }

  // -------------------------------------------------------- interp_clamped

  /** interp_clamped as a value: 0 with no finite pair, the one value with a
      single pair, otherwise np.interp over the sorted, nudged knots. */
  function InterpClamped(xq: real, xs: seq<Float>, ys: seq<Float>): real
    requires |xs| == |ys|
  {
    var f := FinitePairs(xs, ys);
    if |f| == 0 then 0.0
    else if |f| == 1 then f[0].1
    else
      var s := StableSortByX(f);
      StableSortSorted(f);
      NudgedIncreasing(Xs(s));
      NpInterp(xq, Nudged(Xs(s)), Ys(s))
  }

  /** interp_clamped: filter, sort, copy the abscissae into an array, nudge it
      in place, then interpolate. */
  method InterpClampedM(xq: real, xs: seq<Float>, ys: seq<Float>) returns (r: real)
    requires |xs| == |ys|
    ensures r == InterpClamped(xq, xs, ys)
  {
    var f := FinitePairs(xs, ys);
    if |f| == 0 {
      return 0.0;
    }
    if |f| == 1 {
      return f[0].1;
    }
    var s := StableSortByX(f);
    StableSortSorted(f);
    var x := new real[|s|](i requires 0 <= i < |s| => s[i].0);
    assert x[..] == Xs(s);
    NudgeInPlace(x);
    NudgedIncreasing(Xs(s));
    r := NpInterp(xq, x[..], Ys(s));
  }

  /** With no finite pair the interpolator returns 0; with exactly one it
      returns that pair's value whatever the query. */
  lemma InterpDegenerate(xq: real, xs: seq<Float>, ys: seq<Float>)
    requires |xs| == |ys|
    ensures (forall i :: 0 <= i < |xs| ==> !BothFinite(xs[i], ys[i])) ==> InterpClamped(xq, xs, ys) == 0.0
    ensures |FinitePairs(xs, ys)| == 1 ==>
              exists i :: 0 <= i < |xs| && ys[i] == Fin(InterpClamped(xq, xs, ys)) && xs[i].Fin?
  {
    FinitePairsFrom(xs, ys);
  }

  /** Every value of a permutation of f lies within the range of f's values. */
  lemma PermutationInRange(f: seq<Pair>, s: seq<Pair>)
    requires |f| > 0 && multiset(f) == multiset(s)
    ensures forall j :: 0 <= j < |s| ==> SeqMin(Ys(f)) <= s[j].1 <= SeqMax(Ys(f))
  {
    forall j | 0 <= j < |s| ensures SeqMin(Ys(f)) <= s[j].1 <= SeqMax(Ys(f)) {
      assert s[j] in multiset(f);
      var i :| 0 <= i < |f| && f[i] == s[j];
      assert Ys(f)[i] == s[j].1;
    }
  }

  /** The interpolated value lies within the range of the finite y values. */
  lemma InterpClampedRange(xq: real, xs: seq<Float>, ys: seq<Float>)
    requires |xs| == |ys|
    requires FinitePairs(xs, ys) != []
    ensures SeqMin(Ys(FinitePairs(xs, ys))) <= InterpClamped(xq, xs, ys) <= SeqMax(Ys(FinitePairs(xs, ys)))
  {
    var f := FinitePairs(xs, ys);
    if |f| >= 2 {
      SortedInterpBounded(xq, xs, ys);
    } else {
      assert Ys(f) == [f[0].1];
    }
  }

  lemma SortedInterpBounded(xq: real, xs: seq<Float>, ys: seq<Float>)
    requires |xs| == |ys|
    requires |FinitePairs(xs, ys)| >= 2
    ensures SeqMin(Ys(FinitePairs(xs, ys))) <= InterpClamped(xq, xs, ys) <= SeqMax(Ys(FinitePairs(xs, ys)))
  {
    var f := FinitePairs(xs, ys);
    var s := StableSortByX(f);
    StableSortSorted(f);
    NudgedIncreasing(Xs(s));
    var lo, hi := SeqMin(Ys(f)), SeqMax(Ys(f));
    PermutationInRange(f, s);
    assert forall j :: 0 <= j < |s| ==> lo <= Ys(s)[j] <= hi;
    NpInterpBounded(xq, Nudged(Xs(s)), Ys(s), lo, hi);
  }

  /** In a stable sort of f, the head is the first pair of f with the
      smallest x and the last element the last pair of f with the largest x. */
  lemma SortedEndsWithX(f: seq<Pair>)
    requires |f| > 0
    ensures |StableSortByX(f)| == |f|
    ensures StableSortByX(f)[0].0 == SeqMin(Xs(f)) && StableSortByX(f)[|f| - 1].0 == SeqMax(Xs(f))
    ensures WithX(f, SeqMin(Xs(f))) != [] && WithX(f, SeqMin(Xs(f)))[0] == StableSortByX(f)[0]
    ensures WithX(f, SeqMax(Xs(f))) != [] &&
            WithX(f, SeqMax(Xs(f)))[|WithX(f, SeqMax(Xs(f)))| - 1] == StableSortByX(f)[|f| - 1]
  {
    var s := StableSortByX(f);
    var lo, hi := SeqMin(Xs(f)), SeqMax(Xs(f));
    StableSortSorted(f);
    SortedEnds(f, s);
    StableSortStable(f, lo);
    StableSortStable(f, hi);
    WithXHead(s, lo);
    WithXLast(s, hi);
  }

  lemma WithXHead(s: seq<Pair>, v: real)
    requires s != [] && s[0].0 == v
    ensures WithX(s, v) != [] && WithX(s, v)[0] == s[0]
  {
    assert WithX(s, v) == [s[0]] + WithX(s[1..], v);
  }

  lemma WithXLast(s: seq<Pair>, v: real)
    requires s != [] && s[|s| - 1].0 == v
    ensures WithX(s, v) != [] && WithX(s, v)[|WithX(s, v)| - 1] == s[|s| - 1]
  {
    var n := |s|;
    assert s == s[..n - 1] + [s[n - 1]];
    WithXAppend(s[..n - 1], [s[n - 1]], v);
    assert WithX([s[n - 1]], v) == [s[n - 1]];
  }

  /** The interpolator clamps: at or left of the smallest finite x it returns
      the value of the first finite input pair with that x, at or right of the
      last nudged x (which is at least the largest finite x) the value of the
      last finite input pair with the largest x. */
  lemma InterpClampedEnds(xq: real, xs: seq<Float>, ys: seq<Float>)
    requires |xs| == |ys|
    requires |FinitePairs(xs, ys)| >= 2
    ensures var f := FinitePairs(xs, ys);
            var lo, hi := SeqMin(Xs(f)), SeqMax(Xs(f));
            var top := Nudged(Xs(StableSortByX(f)))[|f| - 1];
            WithX(f, lo) != [] && WithX(f, hi) != [] && hi <= top &&
            (xq <= lo ==> InterpClamped(xq, xs, ys) == WithX(f, lo)[0].1) &&
            (xq >= top ==> InterpClamped(xq, xs, ys) == WithX(f, hi)[|WithX(f, hi)| - 1].1)
  {
    SortedClamps(xq, xs, ys);
    SortedEndsWithX(FinitePairs(xs, ys));
  }

  /** The same clamping in terms of the sorted pairs. */
  lemma SortedClamps(xq: real, xs: seq<Float>, ys: seq<Float>)
    requires |xs| == |ys|
    requires |FinitePairs(xs, ys)| >= 2
    ensures var s := StableSortByX(FinitePairs(xs, ys));
            |s| == |FinitePairs(xs, ys)| && s[|s| - 1].0 <= Nudged(Xs(s))[|s| - 1] &&
            (xq <= s[0].0 ==> InterpClamped(xq, xs, ys) == s[0].1) &&
            (xq >= Nudged(Xs(s))[|s| - 1] ==> InterpClamped(xq, xs, ys) == s[|s| - 1].1)
  {
    var f := FinitePairs(xs, ys);
    var s := StableSortByX(f);
    StableSortSorted(f);
    NudgedIncreasing(Xs(s));
    NudgedAbove(Xs(s));
    NpInterpClamps(xq, Nudged(Xs(s)), Ys(s));
  }
}
