/**
  The smoothing recurrence that the indicators share: the running mean of the
  first p samples, then a fixed-weight blend of each new sample with the value so
  far.  The exponential moving average is the instance with weight 2/(p+1), the
  Wilder average of the true range the instance with weight 1/p.
 */
module Averages {

  function Larger(a: nat, b: nat): nat {
    if a < b then b else a
  }

  function Sum(xs: seq<real>): real {
    if xs == [] then 0.0 else Sum(xs[..|xs| - 1]) + xs[|xs| - 1]
  }

  function Mean(xs: seq<real>): real {
    if xs == [] then 0.0 else Sum(xs) / |xs| as real
  }

  // Products are named functions, so that the verifier gets equal products from
  // equal factors without non-linear reasoning.

  function Times(a: real, b: real): real {
    a * b
  }

  /** The new sample x with weight k, the value so far with the rest. */
  function Blend(k: real, x: real, value: real): real {
    k * x + (1.0 - k) * value
  }

  /** The value g after k steps of decay by the factor r. */
  function Decay(r: real, k: nat, g: real): real {
    if k == 0 then g else Times(r, Decay(r, k - 1, g))
  }

  function Pow(r: real, k: nat): real {
    Decay(r, k, 1.0)
  }

  lemma {:induction false} DecayIsPow(r: real, k: nat, g: real)
    ensures Decay(r, k, g) == Times(Pow(r, k), g)
  {
    if k > 0 {
      DecayIsPow(r, k - 1, g);
      Associate(r, Pow(r, k - 1), g);
    }
  }

  lemma Associate(a: real, b: real, c: real)
    ensures Times(a, Times(b, c)) == Times(Times(a, b), c)
  {
  }

  /** The batch value of a smoother with seed length p and weight w. */
  function Smooth(p: nat, w: real, xs: seq<real>): real {
    if |xs| <= p then Mean(xs)
    else Blend(w, xs[|xs| - 1], Smooth(p, w, xs[..|xs| - 1]))
  }

  /** The weight that the k-th sample (counted from 1) has when it arrives. */
  function StepWeight(p: nat, w: real, k: nat): real
    requires k >= 1
  {
    if k <= p then 1.0 / k as real else w
  }

  // ---- One step ----

  /** The mean of n samples from the mean of the first n-1 and the last. */
  function MeanUpdate(mean: real, n: nat, x: real): real
    requires n >= 1
  {
    (mean * (n - 1) as real + x) / n as real
  }

  /** All phases of the smoother are one convex step, with a phase-dependent weight. */
  lemma StepForm(p: nat, w: real, xs: seq<real>)
    requires xs != []
    ensures Smooth(p, w, xs)
            == Blend(StepWeight(p, w, |xs|), xs[|xs| - 1], Smooth(p, w, xs[..|xs| - 1]))
  {
  }

  // ---- Closed form ----

  /** The weight of sample i in the value after m samples: warm-up samples share
      the decaying weight of the seed, later samples decay one by one. */
  function WeightOf(p: nat, w: real, m: nat, i: nat): real
    requires i < m
  {
    if m <= p then 1.0 / m as real
    else if i < p then Decay(1.0 - w, m - p, 1.0 / p as real)
    else Decay(1.0 - w, m - 1 - i, w)
  }

  function Weights(p: nat, w: real, m: nat): (ws: seq<real>)
    ensures |ws| == m
    ensures forall i :: 0 <= i < m ==> ws[i] == WeightOf(p, w, m, i)
  {
    seq(m, i requires 0 <= i < m => WeightOf(p, w, m, i))
  }

  function Dot(ws: seq<real>, xs: seq<real>): real
    requires |ws| == |xs|
  {
    if xs == [] then 0.0
    else Dot(ws[..|ws| - 1], xs[..|xs| - 1]) + Times(ws[|ws| - 1], xs[|xs| - 1])
  }

  function Scale(c: real, xs: seq<real>): (ys: seq<real>)
    ensures |ys| == |xs|
    ensures forall i :: 0 <= i < |xs| ==> ys[i] == Times(c, xs[i])
  {
    seq(|xs|, i requires 0 <= i < |xs| => Times(c, xs[i]))
  }

  lemma {:induction false} DotScale(c: real, ws: seq<real>, xs: seq<real>)
    requires |ws| == |xs|
    ensures Dot(Scale(c, ws), xs) == Times(c, Dot(ws, xs))
  {
    if xs != [] {
      var n := |xs| - 1;
      DotScale(c, ws[..n], xs[..n]);
      assert Scale(c, ws)[..n] == Scale(c, ws[..n]);
      Distribute(c, Dot(ws[..n], xs[..n]), ws[n], xs[n]);
    }
  }

  lemma Distribute(c: real, d: real, a: real, x: real)
    ensures Times(c, d) + Times(Times(c, a), x) == Times(c, d + Times(a, x))
  {
  }

  lemma {:induction false} DotConstant(c: real, ws: seq<real>, xs: seq<real>)
    requires |ws| == |xs| && forall i :: 0 <= i < |ws| ==> ws[i] == c
    ensures Dot(ws, xs) == Times(c, Sum(xs))
  {
    if xs != [] {
      var n := |xs| - 1;
      DotConstant(c, ws[..n], xs[..n]);
      Distribute(c, Sum(xs[..n]), 1.0, xs[n]);
    }
  }

  lemma WeightsStep(p: nat, w: real, m: nat)
    requires m > p
    ensures Weights(p, w, m) == Scale(1.0 - w, Weights(p, w, m - 1)) + [w]
  {
    forall i | 0 <= i < m - 1
      ensures WeightOf(p, w, m, i) == Times(1.0 - w, WeightOf(p, w, m - 1, i))
    {
      if i < p && m - 1 == p {
        assert Decay(1.0 - w, 0, 1.0 / p as real) == 1.0 / p as real;
      }
    }
  }

  lemma MeanWeights(p: nat, w: real, xs: seq<real>)
    requires |xs| <= p
    ensures Mean(xs) == Dot(Weights(p, w, |xs|), xs)
  {
    if xs != [] {
      DotConstant(1.0 / |xs| as real, Weights(p, w, |xs|), xs);
      Quotient(Sum(xs), |xs| as real);
    }
  }

  lemma Quotient(x: real, k: real)
    requires k != 0.0
    ensures x / k == Times(1.0 / k, x)
  {
  }

  lemma DotStep(p: nat, w: real, xs: seq<real>)
    requires |xs| > p
    ensures var n := |xs| - 1;
            Dot(Weights(p, w, |xs|), xs) == Blend(w, xs[n], Dot(Weights(p, w, n), xs[..n]))
  {
    hide Blend, Times, WeightOf, Dot;
    var n := |xs| - 1;
    var ws := Weights(p, w, n);
    WeightsStep(p, w, |xs|);
    BlendDot(ws, w, xs);
  }

  lemma BlendDot(ws: seq<real>, w: real, xs: seq<real>)
    requires |xs| == |ws| + 1
    ensures Dot(Scale(1.0 - w, ws) + [w], xs) == Blend(w, xs[|ws|], Dot(ws, xs[..|ws|]))
  {
    hide *;
    DotAppend(Scale(1.0 - w, ws), w, xs);
    DotScale(1.0 - w, ws, xs[..|ws|]);
    SplitBlend(w, xs[|ws|], Dot(ws, xs[..|ws|]));
  }

  lemma DotAppend(ws: seq<real>, c: real, xs: seq<real>)
    requires |xs| == |ws| + 1
    ensures Dot(ws + [c], xs) == Dot(ws, xs[..|ws|]) + Times(c, xs[|ws|])
  {
  }

  lemma SplitBlend(w: real, x: real, d: real)
    ensures Blend(w, x, d) == Times(1.0 - w, d) + Times(w, x)
  {
  }

  /** After m samples the value is the weighted sum of all of them. */
  lemma {:induction false} ClosedForm(p: nat, w: real, xs: seq<real>)
    ensures Smooth(p, w, xs) == Dot(Weights(p, w, |xs|), xs)
  {
    var m := |xs|;
    if m > p {
      ClosedForm(p, w, xs[..m - 1]);
      DotStep(p, w, xs);
    } else {
      MeanWeights(p, w, xs);
    }
  }

  /** The weights of the k samples after the seed. */
  function LateWeights(w: real, k: nat): (ws: seq<real>)
    ensures |ws| == k
    ensures forall i :: 0 <= i < k ==> ws[i] == Decay(1.0 - w, k - 1 - i, w)
  {
    seq(k, i requires 0 <= i < k => Decay(1.0 - w, k - 1 - i, w))
  }

  /** The seed mean decays as a whole; each later sample decays from its weight w. */
  lemma {:induction false} SeedForm(p: nat, w: real, xs: seq<real>)
    requires |xs| >= p
    ensures Smooth(p, w, xs) == Decay(1.0 - w, |xs| - p, Mean(xs[..p])) + Dot(LateWeights(w, |xs| - p), xs[p..])
  {
    hide Blend, Times, Mean, Dot;
    var k := |xs| - p;
    if k == 0 {
      assert xs[..p] == xs;
      EmptyDot(LateWeights(w, 0), xs[p..]);
    } else {
      var init := xs[..|xs| - 1];
      SeedForm(p, w, init);
      assert init[..p] == xs[..p] && xs[p..][..k - 1] == init[p..];
      assert LateWeights(w, k) == Scale(1.0 - w, LateWeights(w, k - 1)) + [w];
      BlendDot(LateWeights(w, k - 1), w, xs[p..]);
      BlendSplits(w, xs[|xs| - 1], Decay(1.0 - w, k - 1, Mean(xs[..p])), Dot(LateWeights(w, k - 1), init[p..]));
    }
  }

  lemma EmptyDot(ws: seq<real>, xs: seq<real>)
    requires |ws| == |xs| == 0
    ensures Dot(ws, xs) == 0.0
  {
  }

  lemma BlendSplits(w: real, x: real, a: real, b: real)
    ensures Blend(w, x, a + b) == Times(1.0 - w, a) + Blend(w, x, b)
  {
  }

  // ---- Bounds ----

  lemma Product(a: real, b: real)
    requires a >= 0.0 && b >= 0.0
    ensures a * b >= 0.0
  {
  }

  lemma Convex(k: real, x: real, y: real, lo: real, hi: real)
    requires 0.0 <= k <= 1.0
    requires lo <= x <= hi && lo <= y <= hi
    ensures lo <= Blend(k, x, y) <= hi
  {
    Product(k, x - lo);
    Product(1.0 - k, y - lo);
    Product(k, hi - x);
    Product(1.0 - k, hi - y);
    assert Blend(k, x, y) - lo == k * (x - lo) + (1.0 - k) * (y - lo);
    assert hi - Blend(k, x, y) == k * (hi - x) + (1.0 - k) * (hi - y);
  }

  lemma StepWeightInUnit(p: nat, w: real, k: nat)
    requires k >= 1 && 0.0 <= w <= 1.0
    ensures 0.0 <= StepWeight(p, w, k) <= 1.0
    ensures p >= 1 && k == 1 ==> StepWeight(p, w, k) == 1.0
  {
  }

  predicate Within(lo: real, hi: real, xs: seq<real>) {
    forall i :: 0 <= i < |xs| ==> lo <= xs[i] <= hi
  }

  /** A smoother never leaves the range of its samples. */
  lemma {:induction false} Bounds(p: nat, w: real, xs: seq<real>, lo: real, hi: real)
    requires p >= 1 && 0.0 <= w <= 1.0
    requires xs != [] && Within(lo, hi, xs)
    ensures lo <= Smooth(p, w, xs) <= hi
  {
    var n := |xs| - 1;
    StepForm(p, w, xs);
    StepWeightInUnit(p, w, |xs|);
    if n > 0 {
      Bounds(p, w, xs[..n], lo, hi);
      Convex(StepWeight(p, w, |xs|), xs[n], Smooth(p, w, xs[..n]), lo, hi);
    }
  }

  /** The weights of the closed form are an average: none is negative and they add up to 1. */
  lemma WeightsAverage(p: nat, w: real, m: nat)
    requires p >= 1 && m >= 1 && 0.0 <= w <= 1.0
    ensures Sum(Weights(p, w, m)) == 1.0
    ensures forall i :: 0 <= i < m ==> Weights(p, w, m)[i] >= 0.0
  {
    var ones := seq(m, _ => 1.0);
    Bounds(p, w, ones, 1.0, 1.0);
    ClosedForm(p, w, ones);
    DotOnes(Weights(p, w, m), ones);
    forall i | 0 <= i < m
      ensures WeightOf(p, w, m, i) >= 0.0
    {
      if m > p {
        DecayNonNegative(1.0 - w, if i < p then m - p else m - 1 - i, if i < p then 1.0 / p as real else w);
      }
    }
  }

  lemma {:induction false} DotOnes(ws: seq<real>, ones: seq<real>)
    requires |ws| == |ones| && forall i :: 0 <= i < |ones| ==> ones[i] == 1.0
    ensures Dot(ws, ones) == Sum(ws)
  {
    if ws != [] {
      DotOnes(ws[..|ws| - 1], ones[..|ws| - 1]);
    }
  }

  lemma {:induction false} DecayNonNegative(r: real, k: nat, g: real)
    requires r >= 0.0 && g >= 0.0
    ensures Decay(r, k, g) >= 0.0
  {
    if k > 0 {
      DecayNonNegative(r, k - 1, g);
      Product(r, Decay(r, k - 1, g));
    }
  }

  // ---- Forgetting ----

  lemma {:induction false} GapDecays(p: nat, w: real, xs: seq<real>, ys: seq<real>, zs: seq<real>)
    requires |xs| >= p && |ys| >= p
    ensures Smooth(p, w, xs + zs) - Smooth(p, w, ys + zs)
            == Decay(1.0 - w, |zs|, Smooth(p, w, xs) - Smooth(p, w, ys))
  {
    hide Blend, Times, Mean;
    if zs == [] {
      assert xs + zs == xs && ys + zs == ys;
    } else {
      var n := |zs| - 1;
      GapDecays(p, w, xs, ys, zs[..n]);
      assert (xs + zs)[..|xs + zs| - 1] == xs + zs[..n];
      assert (ys + zs)[..|ys + zs| - 1] == ys + zs[..n];
      GapStep(w, zs[n], Smooth(p, w, xs + zs[..n]), Smooth(p, w, ys + zs[..n]));
    }
  }

  lemma GapStep(w: real, z: real, a: real, b: real)
    ensures Blend(w, z, a) - Blend(w, z, b) == Times(1.0 - w, a - b)
  {
  }

  /** Two ready smoothers that receive the same samples close their gap geometrically, exactly. */
  lemma Forgetting(p: nat, w: real, xs: seq<real>, ys: seq<real>, zs: seq<real>)
    requires |xs| >= p && |ys| >= p
    ensures Smooth(p, w, xs + zs) - Smooth(p, w, ys + zs)
            == Times(Pow(1.0 - w, |zs|), Smooth(p, w, xs) - Smooth(p, w, ys))
  {
    hide *;
    GapDecays(p, w, xs, ys, zs);
    DecayIsPow(1.0 - w, |zs|, Smooth(p, w, xs) - Smooth(p, w, ys));
  }

  // ---- Affine maps ----

  function AffineOf(a: real, b: real, x: real): real {
    a * x + b
  }

  function Affine(a: real, b: real, xs: seq<real>): (ys: seq<real>)
    ensures |ys| == |xs|
    ensures forall i :: 0 <= i < |xs| ==> ys[i] == AffineOf(a, b, xs[i])
  {
    seq(|xs|, i requires 0 <= i < |xs| => AffineOf(a, b, xs[i]))
  }

  lemma AffineStep(a: real, b: real, k: real, x: real, y: real)
    ensures Blend(k, AffineOf(a, b, x), AffineOf(a, b, y)) == AffineOf(a, b, Blend(k, x, y))
  {
  }

  /** Changing the unit and the origin of the samples changes the value in the same way. */
  lemma {:induction false} AffineEquivariant(p: nat, w: real, a: real, b: real, xs: seq<real>)
    requires xs != [] && p >= 1
    ensures Smooth(p, w, Affine(a, b, xs)) == AffineOf(a, b, Smooth(p, w, xs))
  {
    var n := |xs| - 1;
    StepForm(p, w, xs);
    StepForm(p, w, Affine(a, b, xs));
    assert Affine(a, b, xs)[..n] == Affine(a, b, xs[..n]);
    if n > 0 {
      AffineEquivariant(p, w, a, b, xs[..n]);
      AffineStep(a, b, StepWeight(p, w, |xs|), xs[n], Smooth(p, w, xs[..n]));
    }
  }

  // ---- Order between a fast and a slow smoother ----

  predicate NonDecreasing(xs: seq<real>) {
    forall i, j :: 0 <= i <= j < |xs| ==> xs[i] <= xs[j]
  }

  lemma Lead(k: real, l: real, x: real, f: real, s: real)
    requires 0.0 <= l <= k <= 1.0 && x >= f >= s
    ensures x >= Blend(k, x, f) >= Blend(l, x, s)
  {
    Product(1.0 - k, x - f);
    Product(1.0 - k, f - s);
    Product(k - l, x - s);
    assert x - Blend(k, x, f) == (1.0 - k) * (x - f);
    assert Blend(k, x, f) - Blend(l, x, s) == (1.0 - k) * (f - s) + (k - l) * (x - s);
  }

  /** On rising samples the smoother that reacts more at every step stays ahead. */
  lemma {:induction false} FastLeads(f: nat, wf: real, s: nat, ws: real, xs: seq<real>)
    requires f >= 1 && s >= 1 && 0.0 <= ws <= 1.0 && 0.0 <= wf <= 1.0
    requires forall k :: 1 <= k <= |xs| ==> StepWeight(f, wf, k) >= StepWeight(s, ws, k)
    requires xs != [] && NonDecreasing(xs)
    ensures xs[|xs| - 1] >= Smooth(f, wf, xs) >= Smooth(s, ws, xs)
  {
    var n := |xs| - 1;
    StepForm(f, wf, xs);
    StepForm(s, ws, xs);
    StepWeightInUnit(f, wf, |xs|);
    StepWeightInUnit(s, ws, |xs|);
    if n > 0 {
      FastLeads(f, wf, s, ws, xs[..n]);
      LeadStep(f, wf, s, ws, xs);
    }
  }

  lemma LeadStep(f: nat, wf: real, s: nat, ws: real, xs: seq<real>)
    requires |xs| >= 2 && NonDecreasing(xs) && 0.0 <= ws <= 1.0 && 0.0 <= wf <= 1.0
    requires StepWeight(f, wf, |xs|) >= StepWeight(s, ws, |xs|)
    requires xs[|xs| - 2] >= Smooth(f, wf, xs[..|xs| - 1]) >= Smooth(s, ws, xs[..|xs| - 1])
    ensures xs[|xs| - 1] >= Smooth(f, wf, xs) >= Smooth(s, ws, xs)
  {
    var n := |xs| - 1;
    StepForm(f, wf, xs);
    StepForm(s, ws, xs);
    StepWeightInUnit(f, wf, |xs|);
    StepWeightInUnit(s, ws, |xs|);
    assert xs[n - 1] <= xs[n];
    Lead(StepWeight(f, wf, |xs|), StepWeight(s, ws, |xs|), xs[n], Smooth(f, wf, xs[..n]), Smooth(s, ws, xs[..n]));
  }

  // ---- Straight lines ----

  function LineAt(a: real, b: real, i: real): real {
    a + b * i
  }

  /** The samples a, a+b, a+2b, ... */
  function Line(a: real, b: real, m: nat): (xs: seq<real>)
    ensures |xs| == m
    ensures forall i :: 0 <= i < m ==> xs[i] == LineAt(a, b, i as real)
  {
    seq(m, i requires 0 <= i < m => LineAt(a, b, i as real))
  }

  lemma {:induction false} LineSum(a: real, b: real, m: nat)
    ensures Sum(Line(a, b, m)) == Times(m as real, LineAt(a, b, (m as real - 1.0) / 2.0))
  {
    if m > 0 {
      LineSum(a, b, m - 1);
      assert Line(a, b, m)[..m - 1] == Line(a, b, m - 1);
      LineArithmetic(a, b, m as real);
    }
  }

  lemma LineArithmetic(a: real, b: real, k: real)
    ensures Times(k - 1.0, LineAt(a, b, (k - 2.0) / 2.0)) + LineAt(a, b, k - 1.0)
            == Times(k, LineAt(a, b, (k - 1.0) / 2.0))
  {
  }

  lemma LineMean(a: real, b: real, m: nat)
    requires m >= 1
    ensures Mean(Line(a, b, m)) == LineAt(a, b, (m as real - 1.0) / 2.0)
  {
    LineSum(a, b, m);
    Cancel(m as real, LineAt(a, b, (m as real - 1.0) / 2.0));
  }

  lemma Cancel(k: real, x: real)
    requires k != 0.0
    ensures Times(k, x) / k == x
  {
  }

  /** On a straight line a ready smoother lags behind the last sample by a constant
      number of samples, when that number is the fixed point of one step. */
  lemma {:induction false} LineLag(p: nat, w: real, a: real, b: real, m: nat)
    requires 1 <= p <= m
    requires Times(1.0 - w, p as real + 1.0) == p as real - 1.0
    ensures Smooth(p, w, Line(a, b, m)) == LineAt(a, b, m as real - 1.0 - (p as real - 1.0) / 2.0)
  {
    if m == p {
      LineMean(a, b, m);
    } else {
      LineLag(p, w, a, b, m - 1);
      assert Line(a, b, m)[..m - 1] == Line(a, b, m - 1);
      LagStep(w, a, b, m as real - 1.0, p as real);
    }
  }

  lemma LagStep(w: real, a: real, b: real, i: real, p: real)
    requires Times(1.0 - w, p + 1.0) == p - 1.0
    ensures Blend(w, LineAt(a, b, i), LineAt(a, b, i - 1.0 - (p - 1.0) / 2.0)) == LineAt(a, b, i - (p - 1.0) / 2.0)
  {
  }
}
