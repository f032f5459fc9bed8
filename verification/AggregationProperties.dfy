/** What holds of the target bars of any run. */
module AggregationProperties {
  import opened Bars
  import opened BarAggregation

  // ---- The windows ----

  /** There is a target bar for every N taken bars; bar i has the start and the symbol of taken
      bar i*N, its open, the close of bar (i+1)*N-1, the extremes and the volume of all N. */
  lemma EmittedExactly(target: Length, taken: seq<MinuteBar>)
    requires IsTarget(target) && Needed(target) > 0
    ensures var n, e := Needed(target), Emitted(target, taken);
            && |e| == |taken| / n
            && forall i :: 0 <= i < |e| ==>
                 && i * n + n <= |taken|
                 && var first, last := taken[i * n], taken[i * n + n - 1];
                 && e[i].symbol == first.symbol && e[i].length == target
                 && e[i].timestamp == CastTimestamp(first.timestamp, target.unit)
                 && e[i].ohlcv.open == first.ohlcv.open && e[i].ohlcv.close == last.ohlcv.close
                 && (forall j :: i * n <= j < i * n + n ==>
                       e[i].ohlcv.low <= taken[j].ohlcv.low && taken[j].ohlcv.high <= e[i].ohlcv.high)
                 && (exists j :: i * n <= j < i * n + n && taken[j].ohlcv.high == e[i].ohlcv.high)
                 && (exists j :: i * n <= j < i * n + n && taken[j].ohlcv.low == e[i].ohlcv.low)
                 && e[i].ohlcv.volume == TotalVolume(Prices(taken[i * n..i * n + n]))
  {
    hide Needed, CastTimestamp, TotalVolume;
    var n, e := Needed(target), Emitted(target, taken);
    forall i | 0 <= i < |e|
      ensures Offset(n, i) == i * n && i * n + n <= |taken|
      ensures Chunk(n, taken, i) == taken[i * n..i * n + n]
      ensures (forall j :: i * n <= j < i * n + n ==>
                 e[i].ohlcv.low <= taken[j].ohlcv.low && taken[j].ohlcv.high <= e[i].ohlcv.high)
      ensures (exists j :: i * n <= j < i * n + n && taken[j].ohlcv.high == e[i].ohlcv.high)
      ensures (exists j :: i * n <= j < i * n + n && taken[j].ohlcv.low == e[i].ohlcv.low)
    {
      ChunkExtremes(n, taken, i, e[i].ohlcv);
    }
  }

  /** The extremes of the fold of a window, in terms of the taken bars. */
  lemma ChunkExtremes(n: nat, taken: seq<MinuteBar>, i: nat, fold: OHLCV)
    requires n > 0 && i < Complete(n, |taken|) && fold == Fold(Prices(Chunk(n, taken, i)))
    ensures forall j :: Offset(n, i) <= j < Offset(n, i) + n ==>
              fold.low <= taken[j].ohlcv.low && taken[j].ohlcv.high <= fold.high
    ensures exists j :: Offset(n, i) <= j < Offset(n, i) + n && taken[j].ohlcv.high == fold.high
    ensures exists j :: Offset(n, i) <= j < Offset(n, i) + n && taken[j].ohlcv.low == fold.low
  {
    hide Complete, Offset, TotalVolume;
    var o, prices := Offset(n, i), Prices(Chunk(n, taken, i));
    forall j | o <= j < o + n
      ensures prices[j - o] == taken[j].ohlcv
    {
    }
    var top :| 0 <= top < n && prices[top].high == fold.high;
    assert taken[o + top].ohlcv.high == fold.high;
    var bottom :| 0 <= bottom < n && prices[bottom].low == fold.low;
    assert taken[o + bottom].ohlcv.low == fold.low;
  }

  // ---- Conservation ----

  /** No volume is lost or counted twice: it is in the emitted bars or in the open window. */
  lemma {:induction false} VolumeConserved(target: Length, taken: seq<MinuteBar>)
    requires IsTarget(target)
    ensures TotalVolume(Prices(taken))
            == TotalVolume(Prices(Emitted(target, taken))) + TotalVolume(Prices(Window(Needed(target), taken)))
  {
    hide Complete, Offset, Needed;
    var n := Needed(target);
    if taken == [] {
      assert Window(n, taken) == [];
      NothingEmitted(target);
    } else {
      var was, b := taken[..|taken| - 1], taken[|taken| - 1];
      VolumeConserved(target, was);
      assert was + [b] == taken;
      EmittedStep(target, was, b);
      VolumeAppend(was, b);
      var extended := Window(n, was) + [b];
      VolumeAppend(Window(n, was), b);
      if |extended| == n {
        VolumeAppend(Emitted(target, was), AggregatedBar(target, extended));
      }
    }
  }

  lemma NothingEmitted(target: Length)
    requires IsTarget(target)
    ensures Emitted(target, []) == []
  {
  }

  lemma VolumeAppend(bars: seq<Bar>, b: Bar)
    ensures TotalVolume(Prices(bars + [b])) == TotalVolume(Prices(bars)) + b.ohlcv.volume
  {
    assert Prices(bars + [b])[..|bars|] == Prices(bars);
  }

  predicate WellOrdered(b: OHLCV) {
    b.low <= b.open <= b.high && b.low <= b.close <= b.high
  }

  /** Well-ordered prices stay well-ordered. */
  lemma OrderKept(target: Length, taken: seq<MinuteBar>, i: nat)
    requires IsTarget(target) && i < |Emitted(target, taken)|
    requires forall j :: 0 <= j < |taken| ==> WellOrdered(taken[j].ohlcv)
    ensures WellOrdered(Emitted(target, taken)[i].ohlcv)
  {
  }

  // ---- Scales ----

  lemma {:induction false} FoldConcat(a: seq<OHLCV>, b: seq<OHLCV>)
    requires a != [] && b != []
    ensures Fold(a + b) == Join(Fold(a), Fold(b))
  {
    hide Fold, Join;
    var init, x := b[..|b| - 1], b[|b| - 1];
    if init == [] {
      assert b == [x];
      FoldSingle(x);
      FoldAppend(a, x);
    } else {
      FoldConcat(a, init);
      assert a + b == (a + init) + [x] && b == init + [x];
      FoldAppend(a + init, x);
      FoldAppend(init, x);
      JoinAssociates(Fold(a), Fold(init), x);
    }
  }

  lemma JoinAssociates(a: OHLCV, b: OHLCV, c: OHLCV)
    ensures Join(Join(a, b), c) == Join(a, Join(b, c))
  {
  }

  /** Folding k neighbouring target bars is folding all the minute bars under them. */
  lemma {:induction false} FoldOfFolds(target: Length, taken: seq<MinuteBar>, s: nat, k: nat)
    requires IsTarget(target) && Needed(target) > 0
    requires k >= 1 && s + k <= |Emitted(target, taken)|
    ensures Offset(Needed(target), s) < Offset(Needed(target), s + k) <= |taken|
    ensures Fold(Prices(Emitted(target, taken)[s..s + k]))
            == Fold(Prices(taken[Offset(Needed(target), s)..Offset(Needed(target), s + k)]))
  {
    hide Complete, Offset, Needed, Fold;
    var n, e, last := Needed(target), Emitted(target, taken), s + k - 1;
    var chunk := Chunk(n, taken, last);
    NextOffset(n, last);
    if k == 1 {
      assert Prices(e[s..s + k]) == [e[s].ohlcv];
      FoldSingle(e[s].ohlcv);
    } else {
      FoldOfFolds(target, taken, s, k - 1);
      var under := taken[Offset(n, s)..Offset(n, last)];
      assert taken[Offset(n, s)..Offset(n, s + k)] == under + chunk;
      PricesConcat(under, chunk);
      FoldConcat(Prices(under), Prices(chunk));
      assert Prices(e[s..s + k]) == Prices(e[s..last]) + [e[last].ohlcv];
      FoldAppend(Prices(e[s..last]), e[last].ohlcv);
    }
  }

  lemma PricesConcat(a: seq<Bar>, b: seq<Bar>)
    ensures Prices(a + b) == Prices(a) + Prices(b)
  {
  }

  /** On one run, the prices of bar i of an aggregator that needs m*n minutes are the fold
      of the m bars from i*m on of an aggregator that needs n minutes. */
  lemma ScaleComposition(fine: Length, coarse: Length, m: nat, taken: seq<MinuteBar>, i: nat, s: nat)
    requires IsTarget(fine) && IsTarget(coarse) && Needed(fine) > 0 && m > 0
    requires Needed(coarse) == m * Needed(fine)
    requires i < |Emitted(coarse, taken)| && s == i * m
    ensures s + m <= |Emitted(fine, taken)|
    ensures Emitted(coarse, taken)[i].ohlcv == Fold(Prices(Emitted(fine, taken)[s..s + m]))
  {
    hide Complete, Offset, Needed, Fold;
    var n, big := Needed(fine), Needed(coarse);
    CoarseStart(n, m, big, i, s);
    EnoughFine(n, big, |taken|, i, s, m);
    FoldsUnderCoarse(fine, coarse, taken, i, s, m);
  }

  lemma FoldsUnderCoarse(fine: Length, coarse: Length, taken: seq<MinuteBar>, i: nat, s: nat, m: nat)
    requires IsTarget(fine) && IsTarget(coarse) && Needed(fine) > 0 && Needed(coarse) > 0 && m > 0
    requires i < |Emitted(coarse, taken)| && s + m <= |Emitted(fine, taken)|
    requires Offset(Needed(coarse), i) == Offset(Needed(fine), s)
    requires Offset(Needed(fine), s + m) == Offset(Needed(coarse), i) + Needed(coarse)
    ensures Emitted(coarse, taken)[i].ohlcv == Fold(Prices(Emitted(fine, taken)[s..s + m]))
  {
    hide Complete, Offset, Needed, Fold;
    FoldOfFolds(fine, taken, s, m);
  }

  lemma CoarseStart(n: nat, m: nat, big: nat, i: nat, s: nat)
    requires n > 0 && m > 0 && big == m * n && s == i * m
    ensures big > 0 && Offset(big, i) == Offset(n, s)
    ensures Offset(n, s + m) == Offset(big, i) + big
  {
  }

  lemma EnoughFine(n: nat, big: nat, taken: nat, i: nat, s: nat, m: nat)
    requires n > 0 && big > 0 && i < Complete(big, taken)
    requires Offset(n, s + m) == Offset(big, i) + big
    ensures s + m <= Complete(n, taken)
  {
    hide Complete, Offset;
    CompleteFits(big, taken);
    OffsetMonotone(big, i, Complete(big, taken));
    CompleteFits(n, taken);
    if Complete(n, taken) < s + m {
      OffsetMonotone(n, Complete(n, taken), s + m);
    }
  }

  // ---- Adjacency of the emitted bars ----

  predicate StepBy(d: int, a: MinuteBar, b: MinuteBar) {
    a.symbol == b.symbol && b.timestamp == a.timestamp + d
  }

  /** Every step is d minutes: 1 for a forward run, -1 for a backward one. */
  predicate Straight(d: int, bars: seq<MinuteBar>) {
    forall i :: 0 <= i < |bars| - 1 ==> StepBy(d, bars[i], bars[i + 1])
  }

  predicate Adjacent(bars: seq<MinuteBar>) {
    forall i :: 0 <= i < |bars| - 1 ==> IsConsecutive(bars[i], bars[i + 1])
  }

  lemma AdjacentAppend(bars: seq<MinuteBar>, b: MinuteBar)
    requires bars != []
    ensures Adjacent(bars + [b]) <==> Adjacent(bars) && IsConsecutive(bars[|bars| - 1], b)
  {
    hide IsConsecutive;
    var now := bars + [b];
    if Adjacent(now) {
      assert IsConsecutive(now[|bars| - 1], now[|bars|]);
      forall i | 0 <= i < |bars| - 1
        ensures IsConsecutive(bars[i], bars[i + 1])
      {
        assert IsConsecutive(now[i], now[i + 1]);
      }
    }
  }

  lemma StraightAppend(d: int, bars: seq<MinuteBar>, b: MinuteBar)
    requires bars != []
    ensures Straight(d, bars + [b]) <==> Straight(d, bars) && StepBy(d, bars[|bars| - 1], b)
  {
    hide StepBy;
    var now := bars + [b];
    if Straight(d, now) {
      assert StepBy(d, now[|bars| - 1], now[|bars|]);
      forall i | 0 <= i < |bars| - 1
        ensures StepBy(d, bars[i], bars[i + 1])
      {
        assert StepBy(d, now[i], now[i + 1]);
      }
    }
  }

  /** A run is taken whole exactly when every bar is adjacent to the one before. */
  lemma {:induction false} AcceptedWhole(input: seq<MinuteBar>)
    ensures |Accepted(input)| <= |input|
    ensures Accepted(input) == input <==> Adjacent(input)
  {
    hide IsConsecutive;
    if input != [] {
      var was, b := input[..|input| - 1], input[|input| - 1];
      AcceptedWhole(was);
      assert input == was + [b];
      if was != [] {
        AdjacentAppend(was, b);
        if Accepted(input) == input {
          assert Accepted(was) == was;
        }
      }
    }
  }

  /** Minutes from a to b, counted in the direction of d. */
  function Progress(d: int, a: MinuteBar, b: MinuteBar): int {
    if d > 0 then b.timestamp - a.timestamp else a.timestamp - b.timestamp
  }

  /** Adjacent bars share the symbol; n of their steps move at most n minutes in a direction,
      and n minutes only when every step goes that way. */
  lemma {:induction false} Displacement(d: int, bars: seq<MinuteBar>)
    requires d == 1 || d == -1
    requires Adjacent(bars) && bars != []
    ensures var n := |bars| - 1;
            && bars[0].symbol == bars[n].symbol
            && Progress(d, bars[0], bars[n]) <= n
            && (Progress(d, bars[0], bars[n]) == n <==> Straight(d, bars))
  {
    hide Straight;
    var n := |bars| - 1;
    if n > 0 {
      var was, b := bars[..n], bars[n];
      assert bars == was + [b];
      AdjacentAppend(was, b);
      StraightAppend(d, was, b);
      Displacement(d, was);
      MinutesConsecutive(was[n - 1], b);
    } else {
      NoStep(d, bars);
    }
  }

  lemma NoStep(d: int, bars: seq<MinuteBar>)
    requires |bars| == 1
    ensures Straight(d, bars)
  {
  }

  /** The taken bars from the first of target bar i to the first of target bar i+1. */
  function Span(n: nat, taken: seq<MinuteBar>, i: nat): (r: seq<MinuteBar>)
    requires n > 0 && i + 1 < Complete(n, |taken|)
    ensures |r| == n + 1 && r[0] == Chunk(n, taken, i)[0] && r[n] == Chunk(n, taken, i + 1)[0]
    ensures Offset(n, i) + n < |taken| && r == taken[Offset(n, i)..Offset(n, i) + n + 1]
  {
    NextOffset(n, i);
    assert |Chunk(n, taken, i + 1)| == n;
    taken[Offset(n, i)..Offset(n, i) + n + 1]
  }

  /** A target in minutes: neighbouring bars are adjacent exactly when the input went straight
      in one direction between their starts.  Inputs that go back and forth are accepted. */
  lemma MinuteTargetAdjacent(count: nat, taken: seq<MinuteBar>, i: nat)
    requires count > 0 && Adjacent(taken)
    requires i + 1 < |Emitted(Length(count, MINUTE), taken)|
    ensures Needed(Length(count, MINUTE)) == count
    ensures var e, span := Emitted(Length(count, MINUTE), taken), Span(count, taken, i);
            IsConsecutive(e[i], e[i + 1]) <==> Straight(1, span) || Straight(-1, span)
  {
    hide Complete, Offset, Straight, Fold, CastTimestamp;
    MinutesNeeded(count);
    hide Needed;
    var span := Span(count, taken, i);
    SpanAdjacent(count, taken, i);
    Displacement(1, span);
    Displacement(-1, span);
    MinuteCast(span[0].timestamp);
    MinuteCast(span[count].timestamp);
    UnitsApart(span[0].timestamp, span[count].timestamp, Length(count, MINUTE));
  }

  lemma MinutesNeeded(count: nat)
    ensures Needed(Length(count, MINUTE)) == count
  {
  }

  lemma SpanAdjacent(n: nat, taken: seq<MinuteBar>, i: nat)
    requires n > 0 && Adjacent(taken) && i + 1 < Complete(n, |taken|)
    ensures Adjacent(Span(n, taken, i))
  {
  }

  lemma MinuteCast(minutes: int)
    ensures CastTimestamp(minutes, MINUTE) == minutes
  {
  }

  /** When truncation toward zero moves by count units as its argument moves forward by count
      units less r: r must not reach below the unit that the argument is in; before the epoch,
      where truncation rounds up, not above it; and across the epoch nothing may be cut off. */
  predicate MovesInStep(q: int, next: int, unit: nat, r: nat)
    requires unit > 0
  {
    if q >= 0 then q % unit >= r
    else if next <= 0 then (-q) % unit + r < unit
    else q % unit == 0 && r == 0
  }

  lemma TruncShift(q: int, unit: nat, count: nat, r: nat)
    requires unit > 0 && r <= count * unit
    ensures var next := q + count * unit - r;
            var moved := TruncDiv(next, unit) - TruncDiv(q, unit);
            moved >= 0 && (moved == count <==> MovesInStep(q, next, unit, r))
  {
    var next := q + count * unit - r;
    FloorShift(q - r, unit, count);
    FloorBack(q, unit, r);
    FloorMonotone(q, next, unit);
    if q < 0 {
      NegatedFloor(q, unit);
      FloorForth(-q, unit, r);
      FloorShift(-next, unit, count);
      FloorMonotone(-next, -q, unit);
      FloorMonotone(q, 0, unit);
      if next > 0 {
        FloorMonotone(q - r, q, unit);
        FloorMonotone(0, next, unit);
        FloorMonotone(0, -q, unit);
      }
    }
  }

  lemma FloorMonotone(a: int, b: int, unit: nat)
    requires unit > 0 && a <= b
    ensures a / unit <= b / unit
  {
    DivMod(a, unit);
    DivMod(b, unit);
    var d := a / unit - b / unit;
    assert d * unit == a / unit * unit - b / unit * unit;
    AtLeastOne(d, unit);
  }

  lemma AtLeastOne(d: int, unit: nat)
    ensures d >= 1 ==> d * unit >= unit
  {
  }

  lemma FloorBack(q: int, unit: nat, r: nat)
    requires unit > 0
    ensures (q - r) / unit == q / unit <==> q % unit >= r
  {
    DivMod(q, unit);
    DivMod(q - r, unit);
    if q % unit >= r {
      var d := (q - r) / unit - q / unit;
      assert d * unit == (q - r) / unit * unit - q / unit * unit;
      Bounded(d, unit);
    }
  }

  lemma FloorForth(q: int, unit: nat, r: nat)
    requires unit > 0
    ensures (q + r) / unit == q / unit <==> q % unit + r < unit
  {
    DivMod(q, unit);
    DivMod(q + r, unit);
    if q % unit + r < unit {
      var d := (q + r) / unit - q / unit;
      assert d * unit == (q + r) / unit * unit - q / unit * unit;
      Bounded(d, unit);
    }
  }

  lemma FloorShift(q: int, unit: nat, count: nat)
    requires unit > 0
    ensures (q + count * unit) / unit == q / unit + count
  {
    DivMod(q, unit);
    DivMod(q + count * unit, unit);
    var d := (q + count * unit) / unit - q / unit - count;
    assert d * unit == (q + count * unit) / unit * unit - q / unit * unit - count * unit;
    Bounded(d, unit);
  }

  lemma DivMod(q: int, unit: nat)
    requires unit > 0
    ensures q / unit * unit + q % unit == q && 0 <= q % unit < unit
  {
  }

  lemma Bounded(d: int, unit: nat)
    requires unit > 0 && -(unit as int) < d * unit < unit
    ensures d == 0
  {
  }

  lemma NegatedFloor(q: int, unit: nat)
    requires unit > 0 && q < 0
    ensures -((-q) / unit) == if q % unit == 0 then q / unit else q / unit + 1
  {
    DivMod(q, unit);
    DivMod(-q, unit);
    var d := -((-q) / unit) - q / unit;
    assert d * unit == -((-q) / unit * unit) - q / unit * unit;
    if q % unit == 0 {
      Bounded(d, unit);
    } else {
      assert (d - 1) * unit == d * unit - unit;
      Bounded(d - 1, unit);
    }
  }

  /** The part of a target bar's length that is no whole minute. */
  function Remainder(target: Length): nat {
    target.Nanos() % MINUTE
  }

  /** Any target on a forward run: whether neighbouring bars are adjacent is decided by where
      the first of them starts in its unit and by the part of the length that is no whole minute. */
  lemma ForwardAdjacent(target: Length, taken: seq<MinuteBar>, i: nat)
    requires IsTarget(target) && Straight(1, taken) && i + 1 < |Emitted(target, taken)|
    ensures var n, e := Needed(target), Emitted(target, taken);
            var start, next := Chunk(n, taken, i)[0].Start(), Chunk(n, taken, i + 1)[0].Start();
            && next == start + target.Nanos() - Remainder(target)
            && (IsConsecutive(e[i], e[i + 1]) <==> MovesInStep(start, next, target.unit, Remainder(target)))
  {
    hide Complete, Offset, CastTimestamp, Straight, Fold, MovesInStep;
    NeededLength(target);
    var n := Needed(target);
    hide Needed;
    var span := Span(n, taken, i);
    StraightSpan(taken, n, i);
    var t := span[0].timestamp;
    CastShift(target, t, n);
    UnitsApart(CastTimestamp(t, target.unit), CastTimestamp(t + n, target.unit), target);
  }

  lemma NeededLength(target: Length)
    ensures Needed(target) * MINUTE == target.Nanos() - Remainder(target)
  {
  }

  lemma CastShift(target: Length, t: int, n: nat)
    requires IsTarget(target) && n * MINUTE == target.Nanos() - Remainder(target)
    ensures var moved := CastTimestamp(t + n, target.unit) - CastTimestamp(t, target.unit);
            && moved >= 0
            && (moved == target.count <==>
                MovesInStep(t * MINUTE, (t + n) * MINUTE, target.unit, Remainder(target)))
  {
    hide MovesInStep;
    TruncShift(t * MINUTE, target.unit, target.count, Remainder(target));
  }

  /** A target of whole minutes in any unit: adjacent unless a unit is lost across the epoch. */
  lemma WholeMinutesAdjacent(target: Length, taken: seq<MinuteBar>, i: nat)
    requires IsTarget(target) && Straight(1, taken) && i + 1 < |Emitted(target, taken)|
    requires Remainder(target) == 0
    ensures var e, start := Emitted(target, taken), Chunk(Needed(target), taken, i)[0].Start();
            IsConsecutive(e[i], e[i + 1]) <==>
            start >= 0 || start + target.Nanos() <= 0 || start % target.unit == 0
  {
    hide Complete, Offset, Needed, CastTimestamp, Straight, Fold, IsConsecutive;
    ForwardAdjacent(target, taken, i);
  }

  /** A target counted in a unit that divides the minute: adjacent exactly when it is whole
      minutes, wherever the run starts.  Comparing the raw counts of target and input excludes
      no target, since the input's count is 1. */
  lemma DividingUnitAdjacent(target: Length, taken: seq<MinuteBar>, i: nat)
    requires IsTarget(target) && Straight(1, taken) && i + 1 < |Emitted(target, taken)|
    requires MINUTE % target.unit == 0
    ensures target.count % ONE_MINUTE.count == 0
    ensures IsConsecutive(Emitted(target, taken)[i], Emitted(target, taken)[i + 1]) <==> Remainder(target) == 0
  {
    hide Complete, Offset, Needed, CastTimestamp, Straight, Fold, IsConsecutive;
    ForwardAdjacent(target, taken, i);
    var start := Chunk(Needed(target), taken, i)[0].timestamp * MINUTE;
    MinutesDivide(Chunk(Needed(target), taken, i)[0].timestamp, target.unit);
    MinutesDivide(-Chunk(Needed(target), taken, i)[0].timestamp, target.unit);
    assert -start == -Chunk(Needed(target), taken, i)[0].timestamp * MINUTE;
    RemainderDivides(target);
  }

  lemma MinutesDivide(minutes: int, unit: nat)
    requires unit > 0 && MINUTE % unit == 0
    ensures (minutes * MINUTE) % unit == 0
  {
    Regroup(minutes, MINUTE / unit, unit);
    Multiple(minutes * (MINUTE / unit), unit);
  }

  lemma Regroup(a: int, b: int, c: int)
    ensures a * (b * c) == a * b * c
  {
  }

  lemma Multiple(m: int, unit: nat)
    requires unit > 0
    ensures (m * unit) % unit == 0
  {
    DivMod(m * unit, unit);
    var d := m - m * unit / unit;
    assert d * unit == m * unit - m * unit / unit * unit;
    Bounded(d, unit);
  }

  lemma DifferenceOfMultiples(a: int, b: int, unit: nat)
    requires unit > 0
    ensures (a * unit - b * unit) % unit == 0
  {
    assert a * unit - b * unit == (a - b) * unit;
    Multiple(a - b, unit);
  }

  lemma RemainderDivides(target: Length)
    requires target.unit > 0 && MINUTE % target.unit == 0
    ensures Remainder(target) % target.unit == 0
    ensures Remainder(target) < target.unit ==> Remainder(target) == 0
  {
    hide Needed, Remainder;
    NeededLength(target);
    var n, k := Needed(target), MINUTE / target.unit;
    Regroup(n, k, target.unit);
    DifferenceOfMultiples(target.count, n * k, target.unit);
    SmallRemainder(Remainder(target), target.unit);
  }

  lemma SmallRemainder(r: nat, unit: nat)
    requires unit > 0
    ensures r < unit ==> r % unit == r
  {
  }

  lemma StraightSpan(taken: seq<MinuteBar>, n: nat, i: nat)
    requires n > 0 && Straight(1, taken) && i + 1 < Complete(n, |taken|)
    ensures var span := Span(n, taken, i);
            span[n].timestamp == span[0].timestamp + n && span[n].symbol == span[0].symbol
  {
    hide Complete, Offset;
    var span := Span(n, taken, i);
    assert Straight(1, span);
    forall k | 0 <= k < n
      ensures IsConsecutive(span[k], span[k + 1])
    {
      assert StepBy(1, span[k], span[k + 1]);
      MinutesConsecutive(span[k], span[k + 1]);
    }
    Displacement(1, span);
  }

  /** Bars of one length are adjacent exactly when their timestamps differ by its count. */
  lemma UnitsApart(a: int, b: int, target: Length)
    requires IsTarget(target)
    ensures a * target.unit + target.Nanos() == b * target.unit <==> b - a == target.count
    ensures b * target.unit + target.Nanos() == a * target.unit <==> a - b == target.count
  {
  }

  // ---- Inputs on which adjacency fails ----

  function MinuteOf(timestamp: int): MinuteBar {
    Bar("", OHLCV(0.0, 0.0, 0.0, 0.0, 0), timestamp, ONE_MINUTE)
  }

  /** Minutes 0, 1, 0, 1: taken whole, and two target bars of two minutes with one start. */
  lemma BackAndForth()
    ensures var input, target := [MinuteOf(0), MinuteOf(1), MinuteOf(0), MinuteOf(1)], Length(2, MINUTE);
            && Accepted(input) == input && |Emitted(target, input)| == 2
            && !IsConsecutive(Emitted(target, input)[0], Emitted(target, input)[1])
  {
    hide Fold, CastTimestamp;
    var input, target := [MinuteOf(0), MinuteOf(1), MinuteOf(0), MinuteOf(1)], Length(2, MINUTE);
    AcceptedWhole(input);
    MinuteTargetAdjacent(2, input, 0);
    var span := Span(2, input, 0);
    assert !StepBy(1, span[1], span[2]) && !StepBy(-1, span[0], span[1]);
  }

  /** The n minutes from a start on. */
  function Minutes(start: int, n: nat): (r: seq<MinuteBar>)
    ensures |r| == n && forall k :: 0 <= k < n ==> r[k] == MinuteOf(start + k)
  {
    seq<MinuteBar>(n, k => MinuteOf(start + k))
  }

  lemma MinutesTaken(start: int, n: nat)
    ensures Straight(1, Minutes(start, n)) && Accepted(Minutes(start, n)) == Minutes(start, n)
  {
    var input := Minutes(start, n);
    forall k | 0 <= k < n - 1
      ensures IsConsecutive(input[k], input[k + 1])
    {
      MinutesConsecutive(input[k], input[k + 1]);
    }
    AcceptedWhole(input);
  }

  /** Hours from minute -30: the hour before the epoch and the one after it both start at hour 0. */
  lemma HourLostAtEpoch()
    ensures var input, target := Minutes(-30, 120), Length(1, 60 * MINUTE);
            && Straight(1, input) && Accepted(input) == input && |Emitted(target, input)| == 2
            && !IsConsecutive(Emitted(target, input)[0], Emitted(target, input)[1])
  {
    hide Fold, Straight, Accepted, IsConsecutive, CastTimestamp;
    var input, target := Minutes(-30, 120), Length(1, 60 * MINUTE);
    MinutesTaken(-30, 120);
    assert Needed(target) == 60 && Remainder(target) == 0;
    WholeMinutesAdjacent(target, input, 0);
    assert Chunk(60, input, 0)[0] == MinuteOf(-30);
  }

  /** Ninety seconds: one minute bar makes a target bar, and no two of them are adjacent. */
  lemma NinetySecondsNeverAdjacent(taken: seq<MinuteBar>, i: nat)
    requires Straight(1, taken) && i + 1 < |Emitted(Length(90, 1_000_000_000), taken)|
    ensures var e := Emitted(Length(90, 1_000_000_000), taken);
            !IsConsecutive(e[i], e[i + 1])
  {
    hide Complete, Offset, Fold, IsConsecutive;
    DividingUnitAdjacent(Length(90, 1_000_000_000), taken, i);
  }
}
