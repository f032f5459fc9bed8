/** The average true range, with the mean seed and the smoothing of Wilder. */
module AverageTrueRange {
  import opened Wrappers
  import opened Averages
  import opened Bars
  import Indicator = ExponentialMovingAverage

  function TrueRange(high: real, low: real, prevClose: real): real {
    Max(Max(Abs(high - low), Abs(high - prevClose)), Abs(low - prevClose))
  }

  /** The value of the previous close that stands for "no previous bar". */
  const NO_CLOSE := -1.0

  /** The true ranges that the indicator takes from a run of bars.  A bar yields one
      exactly when it has a predecessor and that did not close at the sentinel. */
  function Ranges(bars: seq<OHLCV>): seq<real> {
    if |bars| <= 1 then []
    else
      var prev, last := bars[|bars| - 2], bars[|bars| - 1];
      Ranges(bars[..|bars| - 1])
      + if prev.close == NO_CLOSE then [] else [TrueRange(last.high, last.low, prev.close)]
  }

  function Wilder(period: nat, ranges: seq<real>): real
    requires period >= 1
  {
    Smooth(period, 1.0 / period as real, ranges)
  }

  /** The batch meaning. */
  function Atr(period: nat, bars: seq<OHLCV>): real
    requires period >= 1
  {
    Wilder(period, Ranges(bars))
  }

  class ATR {
    var value: real
    var prevClose: real
    var n: nat
    const period: nat
    ghost var Written: seq<OHLCV>

    ghost predicate Valid()
      reads this
    {
      && period >= 1
      && prevClose == (if Written == [] then NO_CLOSE else Written[|Written| - 1].close)
      && n == (if |Ranges(Written)| < period then |Ranges(Written)| else period)
      && value == Atr(period, Written)
    }

    constructor (period: nat)
      requires period >= 1
      ensures Valid() && Written == [] && this.period == period
    {
      this.value, this.prevClose, this.n := 0.0, NO_CLOSE, 0;
      this.period := period;
      this.Written := [];
    }

    predicate IsReady()
      requires Valid()
      reads this
      ensures IsReady() <==> |Ranges(Written)| >= period
    {
      n >= period
    }

    method Read() returns (r: Result<Indicator.Snapshot, Indicator.ReadError>)
      requires Valid()
      ensures r == if |Ranges(Written)| >= period then Ok(map["atr" := Atr(period, Written)])
                   else Err(Indicator.NotReady)
    {
      if !IsReady() {
        return Err(Indicator.NotReady);
      }
      return Ok(map["atr" := value]);
    }

    method Write(ohlcv: OHLCV)
      requires Valid()
      modifies this
      ensures Valid() && Written == old(Written) + [ohlcv]
    {
      hide Wilder, TrueRange, MeanUpdate;
      ghost var now := Written + [ohlcv];
      assert now[..|Written|] == Written;
      if prevClose == NO_CLOSE {
        assert Ranges(now) == Ranges(Written);
        prevClose := ohlcv.close;
        Written := now;
        return;
      }
      var tr := TrueRange(ohlcv.high, ohlcv.low, prevClose);
      assert Ranges(now) == Ranges(Written) + [tr];
      if !IsReady() {
        n := n + 1;
      }
      WilderStep(period, Ranges(Written), tr);
      value := MeanUpdate(value, n, tr);
      prevClose := ohlcv.close;
      Written := now;
    }
  }

  /** The running mean with a count that stops at p carries the batch value on by one true range. */
  lemma WilderStep(p: nat, ranges: seq<real>, tr: real)
    requires p >= 1
    ensures Wilder(p, ranges + [tr])
            == MeanUpdate(Wilder(p, ranges), if |ranges| < p then |ranges| + 1 else p, tr)
  {
  }

  // ---- What the batch value means ----

  /** Every bar but the first yields a true range, unless its predecessor closed at the sentinel. */
  lemma {:induction false} RangesCount(bars: seq<OHLCV>)
    ensures bars != [] ==> |Ranges(bars)| <= |bars| - 1
    ensures bars != [] ==>
              (|Ranges(bars)| == |bars| - 1 <==> forall i :: 0 <= i < |bars| - 1 ==> bars[i].close != NO_CLOSE)
  {
    if |bars| > 1 {
      var init := bars[..|bars| - 1];
      RangesCount(init);
      assert forall i :: 0 <= i < |init| ==> init[i] == bars[i];
      assert init[|init| - 1] == bars[|bars| - 2];
    }
  }

  /** The greatest of three distances: of high and low, and of each of them and the previous close. */
  predicate IsTrueRange(r: real, bar: OHLCV, prevClose: real) {
    && r >= Abs(bar.high - bar.low) && r >= Abs(bar.high - prevClose) && r >= Abs(bar.low - prevClose)
    && (r == Abs(bar.high - bar.low) || r == Abs(bar.high - prevClose) || r == Abs(bar.low - prevClose))
  }

  /** Bar i adds its true range against the close of bar i-1, or none when that is the sentinel. */
  lemma RangesStep(bars: seq<OHLCV>, i: nat)
    requires 1 <= i < |bars|
    ensures var was, now := Ranges(bars[..i]), Ranges(bars[..i + 1]);
            if bars[i - 1].close == -1.0 then now == was
            else |now| == |was| + 1 && was <= now && IsTrueRange(now[|was|], bars[i], bars[i - 1].close)
  {
    hide Abs;
    assert bars[..i + 1][..i] == bars[..i];
  }

  /** Without closes at the sentinel, true range i is that of bar i+1 against the close of bar i:
      from well-formed prices, the reach of the bar and that close. */
  lemma {:induction false} RangesAt(bars: seq<OHLCV>, i: nat)
    requires forall j :: 0 <= j < |bars| - 1 ==> bars[j].close != -1.0
    requires i + 1 < |bars|
    ensures |Ranges(bars)| == |bars| - 1
    ensures IsTrueRange(Ranges(bars)[i], bars[i + 1], bars[i].close)
    ensures bars[i + 1].low <= bars[i + 1].high ==>
              Ranges(bars)[i] == Max(bars[i + 1].high, bars[i].close) - Min(bars[i + 1].low, bars[i].close)
  {
    RangesCount(bars);
    var n := |bars| - 1;
    if i + 1 == n {
      RangesCount(bars[..n]);
    } else {
      RangesAt(bars[..n], i);
    }
  }

  /** The value from the true ranges of the neighbours: their mean up to p of them, then one part
      in p of the latest and the rest of the value so far. */
  lemma AtrExactly(p: nat, bars: seq<OHLCV>, ranges: seq<real>)
    requires p >= 1 && forall j :: 0 <= j < |bars| - 1 ==> bars[j].close != -1.0
    requires |bars| >= 2 && |ranges| == |bars| - 1
    requires forall i :: 0 <= i < |ranges| ==> IsTrueRange(ranges[i], bars[i + 1], bars[i].close)
    ensures var n := |ranges|;
            Atr(p, bars) == if n <= p then Mean(ranges)
                            else Blend(1.0 / p as real, ranges[n - 1], Atr(p, bars[..n]))
  {
    hide Smooth, Wilder, Ranges, Mean, Blend, Abs, IsTrueRange;
    var n := |ranges|;
    RangesAre(bars, ranges);
    if n > p {
      RangesAre(bars[..n], ranges[..n - 1]);
      LongWilder(p, ranges);
    } else {
      ShortWilder(p, ranges);
    }
  }

  lemma LongWilder(p: nat, ranges: seq<real>)
    requires p >= 1 && |ranges| > p
    ensures Wilder(p, ranges) == Blend(1.0 / p as real, ranges[|ranges| - 1], Wilder(p, ranges[..|ranges| - 1]))
  {
  }

  lemma ShortWilder(p: nat, ranges: seq<real>)
    requires p >= 1 && |ranges| <= p
    ensures Wilder(p, ranges) == Mean(ranges)
  {
  }

  lemma RangesAre(bars: seq<OHLCV>, ranges: seq<real>)
    requires forall j :: 0 <= j < |bars| - 1 ==> bars[j].close != -1.0
    requires bars != [] && |ranges| == |bars| - 1
    requires forall i :: 0 <= i < |ranges| ==> IsTrueRange(ranges[i], bars[i + 1], bars[i].close)
    ensures Ranges(bars) == ranges
  {
    hide Ranges, Abs;
    RangesCount(bars);
    forall i | 0 <= i < |ranges|
      ensures Ranges(bars)[i] == ranges[i]
    {
      RangesAt(bars, i);
    }
  }

  /** The warm-up: without a close at the sentinel, ready from bar p+1 on and never before. */
  lemma ReadyAfter(p: nat, bars: seq<OHLCV>)
    requires p >= 1
    requires forall i :: 0 <= i < |bars| - 1 ==> bars[i].close != NO_CLOSE
    ensures |Ranges(bars)| >= p <==> |bars| >= p + 1
  {
    RangesCount(bars);
  }

  /** Between well-formed prices the true range is the reach of the bar and the previous close. */
  lemma TrueRangeIsReach(high: real, low: real, prevClose: real)
    requires low <= high
    ensures TrueRange(high, low, prevClose) == Max(high, prevClose) - Min(low, prevClose)
  {
  }

  /** Once ready, the smoothing is an exponential step of period 2p-1. */
  lemma WilderIsEma(p: nat, ranges: seq<real>, tr: real)
    requires p >= 1
    ensures Indicator.Alpha(2 * p - 1) == 1.0 / p as real
    ensures |ranges| >= p ==>
              Wilder(p, ranges + [tr]) == Blend(Indicator.Alpha(2 * p - 1), tr, Wilder(p, ranges))
  {
    assert (ranges + [tr])[..|ranges|] == ranges;
  }

  /** A close at the sentinel costs the next bar its true range, and the indicator a bar of warm-up. */
  lemma SentinelDropsRange(first: OHLCV, second: OHLCV)
    requires first.close == NO_CLOSE
    ensures Ranges([first, second]) == []
  {
    assert [first, second][..1] == [first];
  }

  /** The value is the weighted sum of the true ranges: the mean of the first p carried on by
      factors of (p-1)/p, every later one entering with 1/p. */
  lemma AtrClosedForm(p: nat, bars: seq<OHLCV>)
    requires p >= 1 && Ranges(bars) != []
    ensures var ws := Weights(p, 1.0 / p as real, |Ranges(bars)|);
            && Atr(p, bars) == Dot(ws, Ranges(bars))
            && Sum(ws) == 1.0
            && (forall i :: 0 <= i < |ws| ==> ws[i] >= 0.0)
  {
    hide Smooth, Dot, Sum, Ranges, WeightOf;
    ClosedForm(p, 1.0 / p as real, Ranges(bars));
    WeightsAverage(p, 1.0 / p as real, |Ranges(bars)|);
  }

  /** The two phases apart: the mean of the first p true ranges times ((p-1)/p)^(m-p), and each
      later one times ((p-1)/p)^(m-1-i)/p. */
  lemma AtrSeedForm(p: nat, bars: seq<OHLCV>)
    requires p >= 1 && |Ranges(bars)| >= p
    ensures var ranges, m, w := Ranges(bars), |Ranges(bars)|, 1.0 / p as real;
            && 1.0 - w == (p as real - 1.0) / p as real
            && Atr(p, bars)
               == Times(Pow(1.0 - w, m - p), Mean(ranges[..p])) + Dot(LateWeights(w, m - p), ranges[p..])
  {
    hide Smooth, Decay, Dot, Mean, Times, Pow, Ranges;
    var ranges, w := Ranges(bars), 1.0 / p as real;
    SeedForm(p, w, ranges);
    DecayIsPow(1.0 - w, |ranges| - p, Mean(ranges[..p]));
    Complement(p as real);
  }

  lemma Complement(x: real)
    requires x != 0.0
    ensures 1.0 - 1.0 / x == (x - 1.0) / x
  {
  }

  lemma {:induction false} RangesNonNegative(bars: seq<OHLCV>)
    ensures forall i :: 0 <= i < |Ranges(bars)| ==> Ranges(bars)[i] >= 0.0
  {
    if |bars| > 1 {
      RangesNonNegative(bars[..|bars| - 1]);
    }
  }

  /** The value stays between 0 and any bound on the true ranges. */
  lemma AtrBounds(p: nat, bars: seq<OHLCV>, hi: real)
    requires p >= 1 && Ranges(bars) != []
    requires forall i :: 0 <= i < |Ranges(bars)| ==> Ranges(bars)[i] <= hi
    ensures 0.0 <= Atr(p, bars) <= hi
  {
    hide Smooth, Ranges;
    RangesNonNegative(bars);
    Bounds(p, 1.0 / p as real, Ranges(bars), 0.0, hi);
  }

  // ---- Affine maps of the prices ----

  function AffineBar(a: real, b: real, bar: OHLCV): OHLCV {
    OHLCV(
      AffineOf(a, b, bar.open),
      AffineOf(a, b, bar.high),
      AffineOf(a, b, bar.low),
      AffineOf(a, b, bar.close),
      bar.volume)
  }

  function AffineBars(a: real, b: real, bars: seq<OHLCV>): (r: seq<OHLCV>)
    ensures |r| == |bars|
    ensures forall i :: 0 <= i < |bars| ==> r[i] == AffineBar(a, b, bars[i])
  {
    seq(|bars|, i requires 0 <= i < |bars| => AffineBar(a, b, bars[i]))
  }

  lemma AbsScales(a: real, b: real, x: real, y: real)
    ensures Abs(AffineOf(a, b, x) - AffineOf(a, b, y)) == Times(Abs(a), Abs(x - y))
  {
  }

  lemma MaxScales(c: real, x: real, y: real)
    requires c >= 0.0
    ensures Max(Times(c, x), Times(c, y)) == Times(c, Max(x, y))
  {
  }

  lemma TrueRangeScales(a: real, b: real, high: real, low: real, prevClose: real)
    ensures TrueRange(AffineOf(a, b, high), AffineOf(a, b, low), AffineOf(a, b, prevClose))
            == Times(Abs(a), TrueRange(high, low, prevClose))
  {
    hide AffineOf, Times;
    AbsScales(a, b, high, low);
    AbsScales(a, b, high, prevClose);
    AbsScales(a, b, low, prevClose);
    MaxScales(Abs(a), Abs(high - low), Abs(high - prevClose));
    MaxScales(Abs(a), Max(Abs(high - low), Abs(high - prevClose)), Abs(low - prevClose));
  }

  lemma {:induction false} RangesScale(a: real, b: real, bars: seq<OHLCV>)
    requires forall i :: 0 <= i < |bars| - 1 ==>
               (bars[i].close == NO_CLOSE <==> AffineOf(a, b, bars[i].close) == NO_CLOSE)
    ensures Ranges(AffineBars(a, b, bars)) == Scale(Abs(a), Ranges(bars))
  {
    if |bars| > 1 {
      var n := |bars| - 1;
      RangesScale(a, b, bars[..n]);
      assert AffineBars(a, b, bars)[..n] == AffineBars(a, b, bars[..n]);
      TrueRangeScales(a, b, bars[n].high, bars[n].low, bars[n - 1].close);
    }
  }

  /** Mapping every price x to a*x+b scales the value by |a|, provided the map neither
      makes a close the sentinel nor moves one away from it. */
  lemma AtrScales(p: nat, a: real, b: real, bars: seq<OHLCV>)
    requires p >= 1 && Ranges(bars) != []
    requires forall i :: 0 <= i < |bars| - 1 ==>
               (bars[i].close == NO_CLOSE <==> AffineOf(a, b, bars[i].close) == NO_CLOSE)
    ensures Atr(p, AffineBars(a, b, bars)) == Times(Abs(a), Atr(p, bars))
  {
    hide Smooth, Ranges, Scale, AffineBars, Times;
    RangesScale(a, b, bars);
    ScaleSmooth(p, 1.0 / p as real, Abs(a), Ranges(bars));
  }

  lemma ScaleSmooth(p: nat, w: real, c: real, xs: seq<real>)
    requires p >= 1 && xs != []
    ensures Smooth(p, w, Scale(c, xs)) == Times(c, Smooth(p, w, xs))
  {
    hide *;
    forall i | 0 <= i < |xs|
      ensures Times(c, xs[i]) == AffineOf(c, 0.0, xs[i])
    {
      PlainScale(c, xs[i]);
    }
    assert Scale(c, xs) == Affine(c, 0.0, xs);
    AffineEquivariant(p, w, c, 0.0, xs);
    PlainScale(c, Smooth(p, w, xs));
  }

  lemma PlainScale(c: real, x: real)
    ensures Times(c, x) == AffineOf(c, 0.0, x)
  {
  }
}
