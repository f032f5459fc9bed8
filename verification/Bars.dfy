/** Price bars and their adjacency in time. */
module Bars {

  function Abs(x: real): real {
    if x < 0.0 then -x else x
  }

  function Max(x: real, y: real): real {
    if x < y then y else x
  }

  function Min(x: real, y: real): real {
    if y < x then y else x
  }

  datatype OHLCV = OHLCV(open: real, high: real, low: real, close: real, volume: nat)

  const MINUTE: nat := 60_000_000_000

  /** A bar length: how many of which unit, the unit given in nanoseconds. */
  datatype Length = Length(count: nat, unit: nat) {
    function Nanos(): nat {
      count * unit
    }
  }

  const ONE_MINUTE := Length(1, MINUTE)

  /** The timestamp counts whole units since the epoch; it may be negative. */
  datatype Bar = Bar(symbol: string, ohlcv: OHLCV, timestamp: int, length: Length) {
    function Start(): int {
      timestamp * length.unit
    }

    function End(): int {
      Start() + length.Nanos()
    }
  }

  type MinuteBar = b: Bar | b.length == ONE_MINUTE
    witness Bar("", OHLCV(0.0, 0.0, 0.0, 0.0, 0), 0, ONE_MINUTE)

  /** Adjacent in either direction: the right bar may also end where the left one starts. */
  predicate IsConsecutive(left: Bar, right: Bar) {
    && left.symbol == right.symbol
    && (left.End() == right.Start() || right.End() == left.Start())
  }

  /** Minute bars are adjacent exactly when they are one minute apart, forwards or backwards. */
  lemma MinutesConsecutive(left: MinuteBar, right: MinuteBar)
    ensures IsConsecutive(left, right) <==>
            && left.symbol == right.symbol
            && (right.timestamp == left.timestamp + 1 || right.timestamp == left.timestamp - 1)
  {
  }

  function Closes(bars: seq<OHLCV>): (xs: seq<real>)
    ensures |xs| == |bars|
    ensures forall i :: 0 <= i < |bars| ==> xs[i] == bars[i].close
  {
    seq(|bars|, i requires 0 <= i < |bars| => bars[i].close)
  }

  lemma ClosesAppend(bars: seq<OHLCV>, b: OHLCV)
    ensures Closes(bars + [b]) == Closes(bars) + [b.close]
  {
  }
}
