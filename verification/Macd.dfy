/** Moving average convergence/divergence: the gap between a fast and a slow average,
    and a third average over that gap, which starts one bar after both are ready. */
module MovingAverageConvergence {
  import opened Wrappers
  import opened Averages
  import opened Bars
  import opened ExponentialMovingAverage

  function MacdLine(fast: nat, slow: nat, closes: seq<real>): real {
    Ema(fast, closes) - Ema(slow, closes)
  }

  /** The series under the signal line: the MACD line of every bar after the first
      max(fast, slow). */
  function SignalInputs(fast: nat, slow: nat, closes: seq<real>): (r: seq<real>)
    ensures |r| == if |closes| <= Larger(fast, slow) then 0 else |closes| - Larger(fast, slow)
  {
    if |closes| <= Larger(fast, slow) then []
    else SignalInputs(fast, slow, closes[..|closes| - 1]) + [MacdLine(fast, slow, closes)]
  }

  function SignalLine(fast: nat, slow: nat, signal: nat, closes: seq<real>): real {
    Ema(signal, SignalInputs(fast, slow, closes))
  }

  function MacdSnapshot(fast: nat, slow: nat, signal: nat, closes: seq<real>): Snapshot {
    var line, sig := MacdLine(fast, slow, closes), SignalLine(fast, slow, signal, closes);
    map["macd" := line, "signal" := sig, "histogram" := line - sig]
  }

  class MACD {
    const fastEma: EMA
    const slowEma: EMA
    const signalEma: EMA
    ghost var Closes: seq<real>

    ghost const Repr: set<object>

    ghost predicate Valid()
      reads this, Repr
    {
      && Repr == {this, fastEma, slowEma, signalEma}
      && fastEma != slowEma && fastEma != signalEma && slowEma != signalEma
      && fastEma.Valid() && slowEma.Valid() && signalEma.Valid()
      && fastEma.Samples == Closes && slowEma.Samples == Closes
      && signalEma.Samples == SignalInputs(fastEma.period, slowEma.period, Closes)
    }

    constructor (fast: nat, slow: nat, signal: nat)
      ensures Valid() && fresh(Repr) && Closes == []
      ensures fastEma.period == fast && slowEma.period == slow && signalEma.period == signal
    {
      var f := new EMA(fast);
      var s := new EMA(slow);
      var g := new EMA(signal);
      fastEma, slowEma, signalEma := f, s, g;
      Closes := [];
      Repr := {this, f, s, g};
    }

    /** Ready from bar max(fast, slow) + signal on. */
    predicate IsReady()
      requires Valid()
      reads this, Repr
      ensures IsReady() <==> |Closes| >= Larger(fastEma.period, slowEma.period) + signalEma.period
    {
      slowEma.IsReady() && fastEma.IsReady() && signalEma.IsReady()
    }

    method Write(ohlcv: OHLCV)
      requires Valid()
      modifies Repr
      ensures Valid() && Closes == old(Closes) + [ohlcv.close]
    {
      ghost var now := Closes + [ohlcv.close];
      assert now[..|Closes|] == Closes;
      var shouldCalcSignal := fastEma.IsReady() && slowEma.IsReady();

      fastEma.WriteBar(ohlcv);
      slowEma.WriteBar(ohlcv);

      if shouldCalcSignal {
        // Taking the value of either outcome is the proof that neither read throws.
        var fast := fastEma.Read();
        var slow := slowEma.Read();
        signalEma.Write(fast.value["ema"] - slow.value["ema"]);
      }
      Closes := now;
    }

    method Read() returns (r: Result<Snapshot, ReadError>)
      requires Valid()
      ensures var f, s, g := fastEma.period, slowEma.period, signalEma.period;
              r == if |Closes| >= Larger(f, s) + g then Ok(MacdSnapshot(f, s, g, Closes)) else Err(NotReady)
      ensures r.Ok? ==>
                && r.value.Keys == {"macd", "signal", "histogram"}
                && r.value["macd"] == Ema(fastEma.period, Closes) - Ema(slowEma.period, Closes)
                && r.value["signal"] == Ema(signalEma.period, signalEma.Samples)
                && r.value["histogram"] == r.value["macd"] - r.value["signal"]
    {
      if !IsReady() {
        return Err(NotReady);
      }
      var fast := fastEma.Read();
      var slow := slowEma.Read();
      var signal := signalEma.Read();
      var line := fast.value["ema"] - slow.value["ema"];
      var signalLine := signal.value["ema"];
      var histogram := line - signalLine;
      return Ok(map["macd" := line, "signal" := signalLine, "histogram" := histogram]);
    }
  }

  // ---- What the lines mean ----

  /** Sample i under the signal line is the MACD line of the first max(fast, slow)+1+i bars. */
  lemma {:induction false} SignalInputAt(fast: nat, slow: nat, closes: seq<real>, i: nat)
    requires i < |SignalInputs(fast, slow, closes)|
    ensures SignalInputs(fast, slow, closes)[i] == MacdLine(fast, slow, closes[..Larger(fast, slow) + 1 + i])
  {
    var n := |closes| - 1;
    if i < |SignalInputs(fast, slow, closes)| - 1 {
      SignalInputAt(fast, slow, closes[..n], i);
      assert closes[..n][..Larger(fast, slow) + 1 + i] == closes[..Larger(fast, slow) + 1 + i];
    } else {
      assert closes[..Larger(fast, slow) + 1 + i] == closes;
    }
  }

  /** The series under the signal line: the gap of the two averages at every bar after both are
      ready, the first one being bar max(fast, slow)+1. */
  ghost predicate IsGapSeries(fast: nat, slow: nat, closes: seq<real>, gaps: seq<real>) {
    var warm := if fast <= slow then slow else fast;
    && |gaps| == (if |closes| <= warm then 0 else |closes| - warm)
    && forall i :: 0 <= i < |gaps| ==>
         gaps[i] == Ema(fast, closes[..warm + 1 + i]) - Ema(slow, closes[..warm + 1 + i])
  }

  /** What is read, key by key: under "macd" the gap of the averages, under "signal" the average
      of that gap over its own series, under "histogram" the first less the second. */
  lemma ReadingExactly(fast: nat, slow: nat, signal: nat, closes: seq<real>, gaps: seq<real>)
    requires IsGapSeries(fast, slow, closes, gaps)
    ensures var r := MacdSnapshot(fast, slow, signal, closes);
            && r.Keys == {"macd", "signal", "histogram"}
            && r["macd"] == Ema(fast, closes) - Ema(slow, closes)
            && r["signal"] == Ema(signal, gaps)
            && r["histogram"] == (Ema(fast, closes) - Ema(slow, closes)) - Ema(signal, gaps)
    ensures gaps == SignalInputs(fast, slow, closes)
  {
    hide Ema;
    var inputs := SignalInputs(fast, slow, closes);
    forall i | 0 <= i < |inputs|
      ensures inputs[i] == MacdLine(fast, slow, closes[..Larger(fast, slow) + 1 + i])
    {
      SignalInputAt(fast, slow, closes, i);
    }
    assert gaps == inputs;
  }

  /** There is such a series for all closes, and only one. */
  lemma GapSeriesExists(fast: nat, slow: nat, closes: seq<real>)
    ensures IsGapSeries(fast, slow, closes, SignalInputs(fast, slow, closes))
  {
    hide Ema;
    var inputs, warm := SignalInputs(fast, slow, closes), Larger(fast, slow);
    forall i | 0 <= i < |inputs|
      ensures inputs[i] == Ema(fast, closes[..warm + 1 + i]) - Ema(slow, closes[..warm + 1 + i])
    {
      SignalInputAt(fast, slow, closes, i);
    }
  }

  /** The MACD line and the signal line never exceed the range of the closes. */
  lemma LinesWithinRange(fast: nat, slow: nat, signal: nat, closes: seq<real>, lo: real, hi: real)
    requires fast >= 1 && slow >= 1 && signal >= 1
    requires |closes| > Larger(fast, slow) && Within(lo, hi, closes)
    ensures -(hi - lo) <= MacdLine(fast, slow, closes) <= hi - lo
    ensures -(hi - lo) <= SignalLine(fast, slow, signal, closes) <= hi - lo
  {
    EmaBounds(fast, closes, lo, hi);
    EmaBounds(slow, closes, lo, hi);
    var inputs := SignalInputs(fast, slow, closes);
    forall i | 0 <= i < |inputs|
      ensures -(hi - lo) <= inputs[i] <= hi - lo
    {
      var seen := closes[..Larger(fast, slow) + 1 + i];
      SignalInputAt(fast, slow, closes, i);
      EmaBounds(fast, seen, lo, hi);
      EmaBounds(slow, seen, lo, hi);
    }
    EmaBounds(signal, inputs, -(hi - lo), hi - lo);
  }

  /** While the closes rise, neither line is ever negative. */
  lemma RisingTrend(fast: nat, slow: nat, signal: nat, closes: seq<real>)
    requires 1 <= fast <= slow && signal >= 1
    requires |closes| > slow && NonDecreasing(closes)
    ensures closes[|closes| - 1] >= Ema(fast, closes) >= Ema(slow, closes)
    ensures MacdLine(fast, slow, closes) >= 0.0
    ensures SignalLine(fast, slow, signal, closes) >= 0.0
  {
    ShorterLeads(fast, slow, closes);
    var inputs := SignalInputs(fast, slow, closes);
    var top := Peak(inputs);
    forall i | 0 <= i < |inputs|
      ensures 0.0 <= inputs[i] <= top
    {
      SignalInputAt(fast, slow, closes, i);
      ShorterLeads(fast, slow, closes[..slow + 1 + i]);
    }
    EmaBounds(signal, inputs, 0.0, top);
  }

  function Peak(xs: seq<real>): (top: real)
    ensures forall i :: 0 <= i < |xs| ==> xs[i] <= top
  {
    if xs == [] then 0.0
    else
      var rest := Peak(xs[..|xs| - 1]);
      if rest < xs[|xs| - 1] then xs[|xs| - 1] else rest
  }

  predicate NonIncreasing(xs: seq<real>) {
    forall i, j :: 0 <= i <= j < |xs| ==> xs[i] >= xs[j]
  }

  /** Mapping every close x to a*x+b scales the three lines by a; the offset vanishes. */
  lemma LinesScale(fast: nat, slow: nat, signal: nat, a: real, b: real, closes: seq<real>)
    requires fast >= 1 && slow >= 1 && signal >= 1
    requires |closes| > Larger(fast, slow)
    ensures var image := Affine(a, b, closes);
            && MacdLine(fast, slow, image) == Times(a, MacdLine(fast, slow, closes))
            && SignalLine(fast, slow, signal, image) == Times(a, SignalLine(fast, slow, signal, closes))
            && MacdSnapshot(fast, slow, signal, image)["histogram"]
               == Times(a, MacdSnapshot(fast, slow, signal, closes)["histogram"])
  {
    hide Ema, MacdLine, AffineOf, Times, SignalInputs;
    var image := Affine(a, b, closes);
    LineScales(fast, slow, a, b, closes);
    InputsScale(fast, slow, a, b, closes);
    EmaAffine(signal, a, 0.0, SignalInputs(fast, slow, closes));
    NoOffset(a, SignalLine(fast, slow, signal, closes));
    TimesDifference(a, MacdLine(fast, slow, closes), SignalLine(fast, slow, signal, closes));
  }

  lemma LineScales(fast: nat, slow: nat, a: real, b: real, closes: seq<real>)
    requires fast >= 1 && slow >= 1 && closes != []
    ensures MacdLine(fast, slow, Affine(a, b, closes)) == Times(a, MacdLine(fast, slow, closes))
  {
    hide Ema;
    EmaAffine(fast, a, b, closes);
    EmaAffine(slow, a, b, closes);
    OffsetCancels(a, b, Ema(fast, closes), Ema(slow, closes));
  }

  lemma OffsetCancels(a: real, b: real, x: real, y: real)
    ensures AffineOf(a, b, x) - AffineOf(a, b, y) == Times(a, x - y)
  {
  }

  lemma NoOffset(a: real, x: real)
    ensures AffineOf(a, 0.0, x) == Times(a, x)
  {
  }

  lemma TimesDifference(a: real, x: real, y: real)
    ensures Times(a, x) - Times(a, y) == Times(a, x - y)
  {
  }

  lemma {:induction false} InputsScale(fast: nat, slow: nat, a: real, b: real, closes: seq<real>)
    requires fast >= 1 && slow >= 1
    ensures SignalInputs(fast, slow, Affine(a, b, closes)) == Affine(a, 0.0, SignalInputs(fast, slow, closes))
  {
    hide MacdLine, AffineOf, Times;
    if |closes| > Larger(fast, slow) {
      var n := |closes| - 1;
      InputsScale(fast, slow, a, b, closes[..n]);
      assert Affine(a, b, closes)[..n] == Affine(a, b, closes[..n]);
      LineScales(fast, slow, a, b, closes);
      NoOffset(a, MacdLine(fast, slow, closes));
    }
  }

  /** While the closes fall, neither line is ever positive. */
  lemma FallingTrend(fast: nat, slow: nat, signal: nat, closes: seq<real>)
    requires 1 <= fast <= slow && signal >= 1
    requires |closes| > slow && NonIncreasing(closes)
    ensures closes[|closes| - 1] <= Ema(fast, closes) <= Ema(slow, closes)
    ensures MacdLine(fast, slow, closes) <= 0.0
    ensures SignalLine(fast, slow, signal, closes) <= 0.0
  {
    var mirror := Affine(-1.0, 0.0, closes);
    RisingTrend(fast, slow, signal, mirror);
    EmaAffine(fast, -1.0, 0.0, closes);
    EmaAffine(slow, -1.0, 0.0, closes);
    LinesScale(fast, slow, signal, -1.0, 0.0, closes);
  }

  /** On closes that follow a straight line the MACD line is the difference of the lags,
      the signal line is the same number and the histogram is 0, at every ready bar. */
  lemma StraightLine(fast: nat, slow: nat, signal: nat, a: real, b: real, m: nat)
    requires fast >= 1 && slow >= 1 && signal >= 1
    requires m >= Larger(fast, slow) + signal
    ensures var gap := b * ((slow as real - fast as real) / 2.0);
            MacdSnapshot(fast, slow, signal, Line(a, b, m)) == map["macd" := gap, "signal" := gap, "histogram" := 0.0]
  {
    var closes := Line(a, b, m);
    var gap := b * ((slow as real - fast as real) / 2.0);
    LineGap(fast, slow, a, b, m);
    var inputs := SignalInputs(fast, slow, closes);
    forall i | 0 <= i < |inputs|
      ensures inputs[i] == gap
    {
      var k := Larger(fast, slow) + 1 + i;
      SignalInputAt(fast, slow, closes, i);
      assert closes[..k] == Line(a, b, k);
      LineGap(fast, slow, a, b, k);
    }
    EmaBounds(signal, inputs, gap, gap);
  }

  lemma LineGap(fast: nat, slow: nat, a: real, b: real, m: nat)
    requires fast >= 1 && slow >= 1 && m >= Larger(fast, slow)
    ensures MacdLine(fast, slow, Line(a, b, m)) == b * ((slow as real - fast as real) / 2.0)
  {
    hide Ema;
    EmaLag(fast, a, b, m);
    EmaLag(slow, a, b, m);
    LineDifference(a, b, m as real - 1.0 - (fast as real - 1.0) / 2.0, m as real - 1.0 - (slow as real - 1.0) / 2.0);
  }

  lemma LineDifference(a: real, b: real, i: real, j: real)
    ensures LineAt(a, b, i) - LineAt(a, b, j) == b * (i - j)
  {
  }
}
