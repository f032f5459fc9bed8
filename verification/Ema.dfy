/** The exponential moving average: the mean of the first samples, then the recurrence. */
module ExponentialMovingAverage {
  import opened Wrappers
  import opened Averages
  import opened Bars

  type Snapshot = map<string, real>

  datatype ReadError = NotReady

  const SMOOTHING_FACTOR := 2.0

  function Alpha(period: nat): real {
    SMOOTHING_FACTOR / (1.0 + period as real)
  }

  /** The batch meaning: what the indicator holds after all the samples. */
  function Ema(period: nat, samples: seq<real>): real {
    Smooth(period, Alpha(period), samples)
  }

  class EMA {
    var value: real
    var n: nat
    const alpha: real
    const period: nat
    ghost var Samples: seq<real>

    ghost predicate Valid()
      reads this
    {
      && alpha == Alpha(period)
      && n == (if |Samples| < period then |Samples| else period)
      && value == Ema(period, Samples)
    }

    constructor (period: nat)
      ensures Valid() && Samples == [] && this.period == period
    {
      this.value, this.n := 0.0, 0;
      this.alpha := SMOOTHING_FACTOR / (1.0 + period as real);
      this.period := period;
      this.Samples := [];
    }

    predicate IsReady()
      requires Valid()
      reads this
      ensures IsReady() <==> |Samples| >= period
    {
      n >= period
    }

    method Read() returns (r: Result<Snapshot, ReadError>)
      requires Valid()
      ensures r == if |Samples| >= period then Ok(map["ema" := Ema(period, Samples)]) else Err(NotReady)
    {
      if !IsReady() {
        return Err(NotReady);
      }
      return Ok(map["ema" := value]);
    }

    method Write(close: real)
      requires Valid()
      modifies this
      ensures Valid() && Samples == old(Samples) + [close]
    {
      hide Ema, Alpha, Blend, MeanUpdate;
      EmaStep(period, Samples, close);
      if IsReady() {
        value := Blend(alpha, close, value);
      } else {
        n := n + 1;
        value := MeanUpdate(value, n, close);
      }
      Samples := Samples + [close];
    }

    method WriteBar(ohlcv: OHLCV)
      requires Valid()
      modifies this
      ensures Valid() && Samples == old(Samples) + [ohlcv.close]
    {
      Write(ohlcv.close);
    }
  }

  /** The blend and the running mean carry the batch value on by one sample. */
  lemma EmaStep(period: nat, samples: seq<real>, close: real)
    ensures Ema(period, samples + [close])
            == if |samples| >= period then Blend(Alpha(period), close, Ema(period, samples))
               else MeanUpdate(Ema(period, samples), |samples| + 1, close)
  {
  }

  // ---- What the batch value means ----

  lemma AlphaInUnit(p: nat)
    requires p >= 1
    ensures 0.0 < Alpha(p) <= 1.0
  {
  }

  /** The value is a weighted sum of all samples: the mean while warming up, then
      (1-alpha)^(m-p) of the seed mean and alpha(1-alpha)^(m-1-i) of each later sample.
      The weights are an average. */
  lemma EmaClosedForm(p: nat, samples: seq<real>)
    requires p >= 1 && samples != []
    ensures var ws := Weights(p, Alpha(p), |samples|);
            && Ema(p, samples) == Dot(ws, samples)
            && Sum(ws) == 1.0
            && (forall i :: 0 <= i < |ws| ==> ws[i] >= 0.0)
  {
    hide Smooth, Dot, Sum, WeightOf;
    AlphaInUnit(p);
    ClosedForm(p, Alpha(p), samples);
    WeightsAverage(p, Alpha(p), |samples|);
  }

  /** The two phases apart: the seed mean times (1-alpha)^(m-p), and each later sample times
      alpha(1-alpha)^(m-1-i). */
  lemma EmaSeedForm(p: nat, samples: seq<real>)
    requires |samples| >= p
    ensures var m, late := |samples|, LateWeights(Alpha(p), |samples| - p);
            && Ema(p, samples) == Times(Pow(1.0 - Alpha(p), m - p), Mean(samples[..p])) + Dot(late, samples[p..])
            && forall i :: 0 <= i < |late| ==> late[i] == Times(Pow(1.0 - Alpha(p), m - p - 1 - i), Alpha(p))
  {
    hide Decay, Dot, Mean, Alpha, Times, Pow;
    var m, late := |samples|, LateWeights(Alpha(p), |samples| - p);
    SeedForm(p, Alpha(p), samples);
    DecayIsPow(1.0 - Alpha(p), m - p, Mean(samples[..p]));
    forall i | 0 <= i < |late|
      ensures late[i] == Times(Pow(1.0 - Alpha(p), m - p - 1 - i), Alpha(p))
    {
      DecayIsPow(1.0 - Alpha(p), m - p - 1 - i, Alpha(p));
    }
  }

  /** Two ready averages of one period that receive the same samples. */
  lemma EmaForgets(p: nat, xs: seq<real>, ys: seq<real>, zs: seq<real>)
    requires |xs| >= p && |ys| >= p
    ensures Ema(p, xs + zs) - Ema(p, ys + zs) == Times(Pow(1.0 - Alpha(p), |zs|), Ema(p, xs) - Ema(p, ys))
  {
    Forgetting(p, Alpha(p), xs, ys, zs);
  }

  lemma EmaBounds(p: nat, samples: seq<real>, lo: real, hi: real)
    requires p >= 1 && samples != [] && Within(lo, hi, samples)
    ensures lo <= Ema(p, samples) <= hi
  {
    hide Smooth;
    AlphaInUnit(p);
    Bounds(p, Alpha(p), samples, lo, hi);
  }

  lemma EmaAffine(p: nat, a: real, b: real, samples: seq<real>)
    requires p >= 1 && samples != []
    ensures Ema(p, Affine(a, b, samples)) == AffineOf(a, b, Ema(p, samples))
  {
    AffineEquivariant(p, Alpha(p), a, b, samples);
  }

  lemma FasterStepWeight(f: nat, s: nat, k: nat)
    requires 1 <= f <= s && k >= 1
    ensures StepWeight(f, Alpha(f), k) >= StepWeight(s, Alpha(s), k)
  {
    var x, y, z := f as real, s as real, k as real;
    if k > s {
      Reciprocal(1.0 + x, 1.0 + y);
      Quotient(2.0, 1.0 + x);
      Quotient(2.0, 1.0 + y);
    } else if k > f {
      assert z >= x + 1.0;
      Reciprocal(1.0 + x, z);
      Quotient(2.0, 1.0 + x);
    }
  }

  lemma Reciprocal(x: real, y: real)
    requires 0.0 < x <= y
    ensures 0.0 < 1.0 / y <= 1.0 / x
  {
  }

  /** On rising samples the shorter average is the larger one, in every phase of either. */
  lemma ShorterLeads(f: nat, s: nat, samples: seq<real>)
    requires 1 <= f <= s && samples != [] && NonDecreasing(samples)
    ensures samples[|samples| - 1] >= Ema(f, samples) >= Ema(s, samples)
  {
    AlphaInUnit(f);
    AlphaInUnit(s);
    forall k | 1 <= k <= |samples|
      ensures StepWeight(f, Alpha(f), k) >= StepWeight(s, Alpha(s), k)
    {
      FasterStepWeight(f, s, k);
    }
    FastLeads(f, Alpha(f), s, Alpha(s), samples);
  }

  /** On a straight line a ready average trails the last sample by (p-1)/2 samples, for ever. */
  lemma EmaLag(p: nat, a: real, b: real, m: nat)
    requires 1 <= p <= m
    ensures Ema(p, Line(a, b, m)) == LineAt(a, b, m as real - 1.0 - (p as real - 1.0) / 2.0)
  {
    var x := p as real;
    assert (2.0 / (1.0 + x)) * (1.0 + x) == 2.0;
    assert Times(1.0 - Alpha(p), x + 1.0) == (1.0 + x) - (2.0 / (1.0 + x)) * (1.0 + x);
    LineLag(p, Alpha(p), a, b, m);
  }
}
