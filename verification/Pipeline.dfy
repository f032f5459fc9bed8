/** The aggregator feeding the engine, over a whole run of minute bars. */
module MarketDataPipeline {
  import opened Averages
  import opened Bars
  import opened BarAggregation
  import opened AggregationProperties
  import opened AverageTrueRange
  import opened IndicatorEngines

  /** The batch meaning: one output for every prefix of the target bars on which all
      indicators are ready, computed from that prefix alone. */
  function Outputs(configs: map<string, UsableConfig>, bars: seq<OHLCV>): seq<Snapshots> {
    if bars == [] then []
    else Outputs(configs, bars[..|bars| - 1]) + if AllReady(configs, bars) then [SnapshotsOn(configs, bars)] else []
  }

  /** The feed drops a bar that the aggregator rejects; target bars go to the engine. */
  method Run(target: Length, configs: seq<UsableConfig>, input: seq<MinuteBar>) returns (out: seq<Snapshots>)
    requires IsTarget(target)
    ensures out == Outputs(Named(configs), Prices(Emitted(target, Accepted(input))))
  {
    hide Emitted, AllReady, SnapshotsOn, Named, IsConsecutive, Prices;
    hide IndicatorEngine.Valid, BarAggregator.Valid;
    var aggregator := new BarAggregator(target);
    var engine := new IndicatorEngine(configs);
    out := [];
    ghost var repr := engine.Repr;
    NoneEmitted(target);
    for i := 0 to |input|
      invariant aggregator.Valid() && aggregator.target == target
      invariant fresh(aggregator) && fresh(repr) && engine.Repr == repr && aggregator !in repr
      invariant aggregator.Taken == Accepted(input[..i])
      invariant engine.Valid() && engine.Configs == Named(configs)
      invariant engine.Received == Prices(Emitted(target, aggregator.Taken))
      invariant out == Outputs(Named(configs), engine.Received)
    {
      assert input[..i + 1][..i] == input[..i];
      var r := aggregator.OnBar(input[i]);
      if r.Ok? && r.value.Some? {
        ghost var was := engine.Received;
        var sent := engine.OnBar(r.value.value.ohlcv);
        PricesStep(Emitted(target, Accepted(input[..i])), r.value.value);
        OutputsStep(Named(configs), was, r.value.value.ohlcv);
        if sent.Some? {
          out := out + [sent.value];
        }
      }
    }
    assert input[..|input|] == input;
  }

  lemma PricesStep(bars: seq<Bar>, b: Bar)
    ensures Prices(bars + [b]) == Prices(bars) + [b.ohlcv]
  {
  }

  lemma NoneEmitted(target: Length)
    requires IsTarget(target)
    ensures Prices(Emitted(target, [])) == []
  {
  }

  lemma OutputsStep(configs: map<string, UsableConfig>, bars: seq<OHLCV>, b: OHLCV)
    ensures Outputs(configs, bars + [b])
            == Outputs(configs, bars) + if AllReady(configs, bars + [b]) then [SnapshotsOn(configs, bars + [b])] else []
  {
  }

  /** The bar from which on every bar gives an output. */
  function FirstOutput(configs: seq<UsableConfig>): nat {
    Larger(1, WarmUpOf(Named(configs)))
  }

  /** How many outputs there are and what each of them is. */
  lemma {:induction false} OutputsExactly(configs: seq<UsableConfig>, bars: seq<OHLCV>)
    requires "ATR" in Named(configs) ==> NoSentinel(bars)
    ensures var outputs, first := Outputs(Named(configs), bars), FirstOutput(configs);
            && |outputs| == (if |bars| < first then 0 else |bars| - first + 1)
            && forall k :: 0 <= k < |outputs| ==> outputs[k] == SnapshotsOn(Named(configs), bars[..first + k])
  {
    hide AllReady, SnapshotsOn, WarmUpOf, Named;
    if bars != [] {
      var was := bars[..|bars| - 1];
      var outputs, first := Outputs(Named(configs), bars), FirstOutput(configs);
      OutputsExactly(configs, was);
      AllReadyExactly(configs, bars);
      forall k | 0 <= k < |outputs|
        ensures outputs[k] == SnapshotsOn(Named(configs), bars[..first + k])
      {
        if k < |Outputs(Named(configs), was)| {
          assert was[..first + k] == bars[..first + k];
        } else {
          assert bars[..first + k] == bars;
        }
      }
    }
  }

  predicate NoSentinelInput(input: seq<MinuteBar>) {
    forall i :: 0 <= i < |input| ==> input[i].ohlcv.close != NO_CLOSE
  }

  lemma {:induction false} AcceptedFromInput(input: seq<MinuteBar>)
    ensures forall i :: 0 <= i < |Accepted(input)| ==> Accepted(input)[i] in input
  {
    hide IsConsecutive;
    if input != [] {
      AcceptedFromInput(input[..|input| - 1]);
    }
  }

  /** End to end, on every input run: with n target bars and the longest warm-up R there are
      max(0, n - max(1, R) + 1) outputs, and output k is made of the batch values of the
      folds of the first max(1, R) + k windows of accepted bars.  With an average true range
      configured, no target bar may close at the sentinel. */
  lemma EndToEnd(target: Length, configs: seq<UsableConfig>, input: seq<MinuteBar>)
    requires IsTarget(target)
    requires "ATR" in Named(configs) ==> NoSentinel(Prices(Emitted(target, Accepted(input))))
    ensures var emitted, first := Prices(Emitted(target, Accepted(input))), FirstOutput(configs);
            var outputs := Outputs(Named(configs), emitted);
            && |emitted| == (if Needed(target) == 0 then 0 else |Accepted(input)| / Needed(target))
            && |outputs| == (if |emitted| < first then 0 else |emitted| - first + 1)
            && (forall k :: 0 <= k < |outputs| ==>
                  && first + k <= |emitted|
                  && outputs[k] == SnapshotsOn(Named(configs), emitted[..first + k]))
  {
    OutputsExactly(configs, Prices(Emitted(target, Accepted(input))));
  }

  /** The five-minute pipeline on n adjacent minute bars. */
  lemma FiveMinutePipeline(configs: seq<UsableConfig>, input: seq<MinuteBar>)
    requires Adjacent(input)
    requires "ATR" in Named(configs) ==> NoSentinel(Prices(Emitted(Length(5, MINUTE), input)))
    ensures var n, first := |input| / 5, FirstOutput(configs);
            var folds := Prices(Emitted(Length(5, MINUTE), input));
            var outputs := Outputs(Named(configs), Prices(Emitted(Length(5, MINUTE), Accepted(input))));
            && |folds| == n
            && (forall i :: 0 <= i < n ==> folds[i] == Fold(Prices(input[5 * i..5 * i + 5])))
            && |outputs| == (if n < first then 0 else n - first + 1)
            && (forall k :: 0 <= k < |outputs| ==> outputs[k] == SnapshotsOn(Named(configs), folds[..first + k]))
  {
    hide Outputs, SnapshotsOn, Named, WarmUpOf, Fold, Adjacent, NoSentinel, Accepted;
    var target := Length(5, MINUTE);
    AcceptedWhole(input);
    EndToEnd(target, configs, input);
    MinutesNeeded(5);
    hide Needed;
    forall i | 0 <= i < |input| / 5
      ensures Chunk(5, input, i) == input[5 * i..5 * i + 5]
    {
      assert Offset(5, i) == 5 * i;
    }
  }

  /** Input without closes at the sentinel gives target bars without. */
  lemma EmittedNoSentinel(target: Length, input: seq<MinuteBar>)
    requires IsTarget(target) && NoSentinelInput(input)
    ensures NoSentinel(Prices(Emitted(target, Accepted(input))))
  {
    hide Complete, Offset, IsConsecutive, Needed;
    AcceptedFromInput(input);
    var taken := Accepted(input);
    var e := Emitted(target, taken);
    forall i | 0 <= i < |e|
      ensures e[i].ohlcv.close != NO_CLOSE
    {
      var chunk := Chunk(Needed(target), taken, i);
      assert chunk[|chunk| - 1] in taken;
    }
  }

  /** With the usual three indicators the first output comes with the 35th target bar. */
  lemma UsualFirstOutput()
    ensures FirstOutput([EmaConfig(20), AtrConfig(14), MacdConfig(12, 26, 9)]) == 35
  {
    var e, a, m := EmaConfig(20), AtrConfig(14), MacdConfig(12, 26, 9);
    assert [e, a, m][..2] == [e, a] && [e, a][..1] == [e] && [e][..0] == [];
    assert Named([e]) == map["EMA" := e];
    assert Named([e, a]) == map["EMA" := e, "ATR" := a];
    assert Named([e, a, m]) == map["EMA" := e, "ATR" := a, "MACD" := m];
  }
}
