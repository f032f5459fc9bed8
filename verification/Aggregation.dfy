/** Aggregation of one-minute bars into longer ones. */
module BarAggregation {
  import opened Wrappers
  import opened Bars

  // ---- The fold of a window ----

  function Highest(bars: seq<OHLCV>): (top: real)
    requires bars != []
    ensures forall i :: 0 <= i < |bars| ==> bars[i].high <= top
    ensures exists i :: 0 <= i < |bars| && bars[i].high == top
  {
    var last := bars[|bars| - 1].high;
    if |bars| == 1 then last else Max(Highest(bars[..|bars| - 1]), last)
  }

  function Lowest(bars: seq<OHLCV>): (bottom: real)
    requires bars != []
    ensures forall i :: 0 <= i < |bars| ==> bottom <= bars[i].low
    ensures exists i :: 0 <= i < |bars| && bars[i].low == bottom
  {
    var last := bars[|bars| - 1].low;
    if |bars| == 1 then last else Min(Lowest(bars[..|bars| - 1]), last)
  }

  function TotalVolume(bars: seq<OHLCV>): nat {
    if bars == [] then 0 else TotalVolume(bars[..|bars| - 1]) + bars[|bars| - 1].volume
  }

  /** First open, highest high, lowest low, last close, summed volume. */
  function Fold(bars: seq<OHLCV>): OHLCV
    requires bars != []
  {
    OHLCV(bars[0].open, Highest(bars), Lowest(bars), bars[|bars| - 1].close, TotalVolume(bars))
  }

  function Prices(bars: seq<Bar>): (r: seq<OHLCV>)
    ensures |r| == |bars|
    ensures forall i :: 0 <= i < |bars| ==> r[i] == bars[i].ohlcv
  {
    seq(|bars|, i requires 0 <= i < |bars| => bars[i].ohlcv)
  }

  // ---- The target length ----

  ghost predicate IsTarget(target: Length) {
    target.count > 0 && target.unit > 0
  }

  /** How many minute bars make a target bar; 0 for a target shorter than a minute. */
  function Needed(target: Length): nat {
    target.Nanos() / MINUTE
  }

  /** Division that truncates toward zero. */
  function TruncDiv(a: int, b: int): int
    requires b > 0
  {
    if a >= 0 then a / b else -((-a) / b)
  }

  function CastTimestamp(minutes: int, unit: nat): int
    requires unit > 0
  {
    TruncDiv(minutes * MINUTE, unit)
  }

  function AggregatedBar(target: Length, window: seq<MinuteBar>): Bar
    requires IsTarget(target) && window != []
  {
    Bar(window[0].symbol, Fold(Prices(window)), CastTimestamp(window[0].timestamp, target.unit), target)
  }

  // ---- The batch meaning of a run ----

  /** The bars of a run that are not rejected: each must be adjacent to the last one taken. */
  function Accepted(input: seq<MinuteBar>): (r: seq<MinuteBar>)
    ensures forall i :: 0 <= i < |r| - 1 ==> IsConsecutive(r[i], r[i + 1])
  {
    if input == [] then []
    else
      var taken, b := Accepted(input[..|input| - 1]), input[|input| - 1];
      if taken == [] || IsConsecutive(taken[|taken| - 1], b) then taken + [b] else taken
  }

  // Complete windows of n among m bars, and where window i starts.

  function Complete(n: nat, m: nat): nat
    requires n > 0
  {
    m / n
  }

  function Offset(n: nat, i: nat): nat {
    i * n
  }

  lemma CompleteFits(n: nat, m: nat)
    requires n > 0
    ensures Offset(n, Complete(n, m)) <= m < Offset(n, Complete(n, m)) + n
    ensures m - Offset(n, Complete(n, m)) == m % n
  {
  }

  lemma NextOffset(n: nat, i: nat)
    ensures Offset(n, i + 1) == Offset(n, i) + n
  {
  }

  lemma {:induction false} OffsetMonotone(n: nat, i: nat, j: nat)
    requires i <= j
    ensures Offset(n, i) <= Offset(n, j)
    ensures i < j ==> Offset(n, i) + n <= Offset(n, j)
    decreases j
  {
    hide Offset;
    if i < j {
      OffsetMonotone(n, i, j - 1);
      NextOffset(n, j - 1);
    }
  }

  /** The number of complete windows is determined by where the open one starts. */
  lemma CompleteIs(n: nat, m: nat, q: nat)
    requires n > 0 && Offset(n, q) <= m < Offset(n, q) + n
    ensures Complete(n, m) == q
  {
    CompleteFits(n, m);
    if Complete(n, m) < q {
      OffsetMonotone(n, Complete(n, m), q);
    } else if q < Complete(n, m) {
      OffsetMonotone(n, q, Complete(n, m));
    }
  }

  lemma CompleteMonotone(n: nat, m: nat, k: nat)
    requires n > 0 && m <= k
    ensures Complete(n, m) <= Complete(n, k)
  {
    CompleteFits(n, m);
    CompleteFits(n, k);
    if Complete(n, k) < Complete(n, m) {
      OffsetMonotone(n, Complete(n, k), Complete(n, m));
    }
  }

  function Chunk<T>(n: nat, taken: seq<T>, i: nat): (r: seq<T>)
    requires n > 0 && i < Complete(n, |taken|)
    ensures |r| == n
    ensures Offset(n, i) + n <= |taken| && r == taken[Offset(n, i)..Offset(n, i) + n]
  {
    CompleteFits(n, |taken|);
    OffsetMonotone(n, i, Complete(n, |taken|));
    taken[Offset(n, i)..Offset(n, i) + n]
  }

  /** Target bar i is the fold of the taken bars i*N to (i+1)*N-1. */
  function Emitted(target: Length, taken: seq<MinuteBar>): (r: seq<Bar>)
    requires IsTarget(target)
    ensures |r| == if Needed(target) == 0 then 0 else Complete(Needed(target), |taken|)
    ensures forall i :: 0 <= i < |r| ==> r[i] == AggregatedBar(target, Chunk(Needed(target), taken, i))
  {
    var n := Needed(target);
    if n == 0 then []
    else
      seq(Complete(n, |taken|), i requires 0 <= i < Complete(n, |taken|) =>
        AggregatedBar(target, Chunk(n, taken, i)))
  }

  /** The taken bars that are not part of a target bar yet. */
  function Window<T>(n: nat, taken: seq<T>): (r: seq<T>)
    ensures n > 0 ==> |r| < n && |r| == |taken| % n
  {
    if n == 0 then taken
    else
      CompleteFits(n, |taken|);
      taken[Offset(n, Complete(n, |taken|))..]
  }

  /** One more taken bar either extends the window or completes it. */
  lemma TakeStep<T>(n: nat, taken: seq<T>, b: T)
    requires n > 0
    ensures var now, extended := taken + [b], Window(n, taken) + [b];
            var q := Complete(n, |taken|);
            if |extended| == n then
              Complete(n, |now|) == q + 1 && Window(n, now) == [] && Chunk(n, now, q) == extended
            else
              Complete(n, |now|) == q && Window(n, now) == extended
  {
    hide Complete, Offset;
    var m, q := |taken|, Complete(n, |taken|);
    CompleteFits(n, m);
    if |Window(n, taken)| + 1 == n {
      NextOffset(n, q);
      CompleteIs(n, m + 1, q + 1);
    } else {
      CompleteIs(n, m + 1, q);
    }
  }

  lemma ChunkStays<T>(n: nat, taken: seq<T>, more: seq<T>, i: nat)
    requires n > 0 && i < Complete(n, |taken|)
    ensures i < Complete(n, |taken + more|) && Chunk(n, taken + more, i) == Chunk(n, taken, i)
  {
    hide Complete, Offset;
    CompleteMonotone(n, |taken|, |taken + more|);
  }

  // ---- The aggregator ----

  datatype AggregationError = OutOfSequence

  class BarAggregator {
    const target: Length
    var current: Option<Bar>
    var barsInWindow: nat
    var lastInput: Option<MinuteBar>
    ghost var Taken: seq<MinuteBar>

    ghost predicate Valid()
      reads this
    {
      && IsTarget(target)
      && var window := Window(Needed(target), Taken);
      && barsInWindow == |window|
      && (window != [] ==> current == Some(AggregatedBar(target, window)))
      && lastInput == (if Taken == [] then None else Some(Taken[|Taken| - 1]))
    }

    constructor (target: Length)
      requires IsTarget(target)
      ensures Valid() && Taken == [] && this.target == target
    {
      this.target := target;
      current, barsInWindow, lastInput := None, 0, None;
      Taken := [];
    }

    /** Returns the bar that is sent to the subscribers, if any.  A rejected bar changes nothing. */
    method OnBar(input: MinuteBar) returns (r: Result<Option<Bar>, AggregationError>)
      requires Valid()
      modifies this
      ensures Valid()
      ensures r.Err? <==> old(Taken) != [] && !IsConsecutive(old(Taken)[|old(Taken)| - 1], input)
      ensures r.Err? ==> unchanged(this)
      ensures r.Ok? ==>
                && Taken == old(Taken) + [input]
                && Emitted(target, Taken)
                   == Emitted(target, old(Taken)) + (if r.value.Some? then [r.value.value] else [])
    {
      hide Complete, Offset, Emitted, Needed, CastTimestamp, Window, Fold, Max, Min;
      if lastInput.Some? {
        if !IsConsecutive(lastInput.value, input) {
          return Err(OutOfSequence);
        }
      }

      var barsNeeded := Needed(target);
      ghost var window, now := Window(barsNeeded, Taken), Taken + [input];
      EmittedStep(target, Taken, input);

      if barsInWindow == 0 {
        current := Some(Bar(input.symbol, input.ohlcv, CastTimestamp(input.timestamp, target.unit), target));
        barsInWindow := 1;
      } else {
        var bar := current.value;
        current := Some(Bar(
          bar.symbol,
          OHLCV(
            bar.ohlcv.open,
            Max(bar.ohlcv.high, input.ohlcv.high),
            Min(bar.ohlcv.low, input.ohlcv.low),
            input.ohlcv.close,
            bar.ohlcv.volume + input.ohlcv.volume),
          bar.timestamp,
          target));
        barsInWindow := barsInWindow + 1;
      }
      WindowStep(target, window, input);

      lastInput := Some(input);
      Taken := now;

      if barsInWindow == barsNeeded {
        r := Ok(current);
        barsInWindow := 0;
      } else {
        r := Ok(None);
      }
    }
  }

  /** One more taken bar emits the completed window, if it completes it. */
  lemma EmittedStep(target: Length, taken: seq<MinuteBar>, b: MinuteBar)
    requires IsTarget(target)
    ensures var n, now, extended := Needed(target), taken + [b], Window(Needed(target), taken) + [b];
            if |extended| == n then
              Emitted(target, now) == Emitted(target, taken) + [AggregatedBar(target, extended)] && Window(n, now) == []
            else
              Emitted(target, now) == Emitted(target, taken) && Window(n, now) == extended
  {
    hide Complete, Offset, AggregatedBar, Needed;
    var n, now := Needed(target), taken + [b];
    if n > 0 {
      TakeStep(n, taken, b);
      forall i | 0 <= i < Complete(n, |taken|)
        ensures i < Complete(n, |now|) && Chunk(n, now, i) == Chunk(n, taken, i)
      {
        ChunkStays(n, taken, [b], i);
      }
    }
  }

  lemma WindowStep(target: Length, window: seq<MinuteBar>, input: MinuteBar)
    requires IsTarget(target)
    ensures var now := AggregatedBar(target, window + [input]);
            if window == [] then
              now == Bar(input.symbol, input.ohlcv, CastTimestamp(input.timestamp, target.unit), target)
            else
              var was := AggregatedBar(target, window);
              now == was.(ohlcv := Join(was.ohlcv, input.ohlcv))
  {
    assert Prices(window + [input]) == Prices(window) + [input.ohlcv];
    if window == [] {
      FoldSingle(input.ohlcv);
    } else {
      FoldAppend(Prices(window), input.ohlcv);
    }
  }

  /** Two adjacent bars as one. */
  function Join(a: OHLCV, b: OHLCV): OHLCV {
    OHLCV(a.open, Max(a.high, b.high), Min(a.low, b.low), b.close, a.volume + b.volume)
  }

  lemma FoldSingle(b: OHLCV)
    ensures Fold([b]) == b
  {
    assert TotalVolume([b]) == TotalVolume([]) + b.volume;
  }

  lemma FoldAppend(bars: seq<OHLCV>, b: OHLCV)
    requires bars != []
    ensures Fold(bars + [b]) == Join(Fold(bars), b)
  {
  }
}
