/** The indicator engine: every bar goes to every indicator; once all are ready, their
    values are sent out together. */
module IndicatorEngines {
  import opened Wrappers
  import opened Averages
  import opened Bars
  import opened ExponentialMovingAverage
  import opened AverageTrueRange
  import opened MovingAverageConvergence

  type Snapshots = map<string, Snapshot>

  // ---- Configurations and what they stand for ----

  datatype Config =
    | EmaConfig(period: nat)
    | AtrConfig(period: nat)
    | MacdConfig(fast: nat, slow: nat, signal: nat)

  /** The average true range divides by its period. */
  predicate Usable(c: Config) {
    c.AtrConfig? ==> c.period >= 1
  }

  type UsableConfig = c: Config | Usable(c) witness EmaConfig(0)

  function Name(c: Config): string {
    match c
    case EmaConfig(_) => "EMA"
    case AtrConfig(_) => "ATR"
    case MacdConfig(_, _, _) => "MACD"
  }

  predicate ReadyOn(c: UsableConfig, bars: seq<OHLCV>) {
    match c
    case EmaConfig(p) => |bars| >= p
    case AtrConfig(p) => |Ranges(bars)| >= p
    case MacdConfig(f, s, g) => |bars| >= Larger(f, s) + g
  }

  function SnapshotOn(c: UsableConfig, bars: seq<OHLCV>): Snapshot {
    match c
    case EmaConfig(p) => map["ema" := Ema(p, Closes(bars))]
    case AtrConfig(p) => map["atr" := Atr(p, bars)]
    case MacdConfig(f, s, g) => MacdSnapshot(f, s, g, Closes(bars))
  }

  /** The indicators that a list of configurations creates: of two with one name the later stays. */
  function Named(configs: seq<UsableConfig>): (r: map<string, UsableConfig>)
    ensures forall name :: name in r ==> Name(r[name]) == name
  {
    if configs == [] then map[]
    else
      var c := configs[|configs| - 1];
      Named(configs[..|configs| - 1])[Name(c) := c]
  }

  /** Configuration i is the last of its name. */
  predicate LastOfName(configs: seq<UsableConfig>, i: nat)
    requires i < |configs|
  {
    forall j :: i < j < |configs| ==> Name(configs[j]) != Name(configs[i])
  }

  lemma {:induction false} NamedExactly(configs: seq<UsableConfig>, name: string)
    ensures name in Named(configs) <==> exists i :: 0 <= i < |configs| && Name(configs[i]) == name
    ensures forall i :: 0 <= i < |configs| && Name(configs[i]) == name && LastOfName(configs, i) ==>
              Named(configs)[name] == configs[i]
  {
    hide Name;
    if configs != [] {
      var n := |configs| - 1;
      NamedExactly(configs[..n], name);
      assert Name(configs[n]) == name ==> name in Named(configs);
      forall i | 0 <= i < |configs| && Name(configs[i]) == name && LastOfName(configs, i)
        ensures Named(configs)[name] == configs[i]
      {
        if i < n {
          assert Name(configs[n]) != name;
          assert LastOfName(configs[..n], i);
          assert configs[..n][i] == configs[i];
        }
      }
      if name in Named(configs[..n]) {
        var i :| 0 <= i < n && Name(configs[..n][i]) == name;
        assert Name(configs[i]) == name;
      }
      if i :| 0 <= i < n && Name(configs[i]) == name {
        assert Name(configs[..n][i]) == name;
      }
    }
  }

  predicate AllReady(configs: map<string, UsableConfig>, bars: seq<OHLCV>) {
    forall name :: name in configs ==> ReadyOn(configs[name], bars)
  }

  function SnapshotsOn(configs: map<string, UsableConfig>, bars: seq<OHLCV>): Snapshots {
    map name | name in configs :: SnapshotOn(configs[name], bars)
  }

  function NoSnapshots(configs: map<string, UsableConfig>): Snapshots {
    map name | name in configs :: map[]
  }

  lemma NoSnapshotsAdd(configs: map<string, UsableConfig>, name: string, c: UsableConfig)
    ensures NoSnapshots(configs[name := c]) == NoSnapshots(configs)[name := map[]]
  {
  }

  // ---- An indicator behind the common interface ----

  datatype Indicator =
    | EmaIndicator(ema: EMA)
    | AtrIndicator(atr: ATR)
    | MacdIndicator(macd: MACD)
  {
    ghost function Repr(): set<object> {
      match this
      case EmaIndicator(ema) => {ema}
      case AtrIndicator(atr) => {atr}
      case MacdIndicator(macd) => {macd} + macd.Repr
    }

    /** It was built from c and has received exactly these bars. */
    ghost predicate Holds(c: UsableConfig, bars: seq<OHLCV>)
      reads Repr()
    {
      match this
      case EmaIndicator(ema) => c == EmaConfig(ema.period) && ema.Valid() && ema.Samples == Closes(bars)
      case AtrIndicator(atr) => c == AtrConfig(atr.period) && atr.Valid() && atr.Written == bars
      case MacdIndicator(macd) =>
        && macd.Valid() && macd.Closes == Closes(bars)
        && c == MacdConfig(macd.fastEma.period, macd.slowEma.period, macd.signalEma.period)
    }

    predicate IsReady(ghost c: UsableConfig, ghost bars: seq<OHLCV>)
      requires Holds(c, bars)
      reads Repr()
      ensures IsReady(c, bars) <==> ReadyOn(c, bars)
    {
      match this
      case EmaIndicator(ema) => ema.IsReady()
      case AtrIndicator(atr) => atr.IsReady()
      case MacdIndicator(macd) => macd.IsReady()
    }

    method Write(bar: OHLCV, ghost c: UsableConfig, ghost bars: seq<OHLCV>)
      requires Holds(c, bars)
      modifies Repr()
      ensures Holds(c, bars + [bar])
    {
      ClosesAppend(bars, bar);
      match this
      case EmaIndicator(ema) => ema.WriteBar(bar);
      case AtrIndicator(atr) => atr.Write(bar);
      case MacdIndicator(macd) => macd.Write(bar);
    }

    method Read(ghost c: UsableConfig, ghost bars: seq<OHLCV>) returns (r: Result<Snapshot, ReadError>)
      requires Holds(c, bars)
      ensures r == if ReadyOn(c, bars) then Ok(SnapshotOn(c, bars)) else Err(NotReady)
    {
      match this
      case EmaIndicator(ema) => r := ema.Read();
      case AtrIndicator(atr) => r := atr.Read();
      case MacdIndicator(macd) => r := macd.Read();
    }
  }

  method Create(c: UsableConfig) returns (indicator: Indicator)
    ensures indicator.Holds(c, []) && fresh(indicator.Repr())
  {
    match c
    case EmaConfig(p) =>
      var ema := new EMA(p);
      return EmaIndicator(ema);
    case AtrConfig(p) =>
      var atr := new ATR(p);
      return AtrIndicator(atr);
    case MacdConfig(f, s, g) =>
      var macd := new MACD(f, s, g);
      return MacdIndicator(macd);
  }

  // ---- The engine ----

  /** Inside one representation, the indicators share nothing with their owner or each other. */
  ghost predicate Apart(owner: object, repr: set<object>, indicators: map<string, Indicator>) {
    && owner in repr
    && (forall name :: name in indicators ==>
          indicators[name].Repr() <= repr && owner !in indicators[name].Repr())
    && (forall a, b :: a in indicators && b in indicators && a != b ==>
          indicators[a].Repr() !! indicators[b].Repr())
  }

  lemma ApartAdd(owner: object, repr: set<object>, indicators: map<string, Indicator>, name: string, added: Indicator)
    requires Apart(owner, repr, indicators) && added.Repr() !! repr
    ensures Apart(owner, repr + added.Repr(), indicators[name := added])
  {
    hide Indicator.Repr;
  }

  class IndicatorEngine {
    var indicators: map<string, Indicator>
    var snapshots: Snapshots
    ghost var Configs: map<string, UsableConfig>
    ghost var Received: seq<OHLCV>
    ghost var Repr: set<object>

    /** The indicators are separate objects, one for each configuration. */
    ghost predicate Separate()
      reads this
    {
      indicators.Keys == Configs.Keys && Apart(this, Repr, indicators)
    }

    ghost predicate Valid()
      reads this, Repr
    {
      && Separate()
      && (forall name :: name in indicators ==> indicators[name].Holds(Configs[name], Received))
      && snapshots == (if Received != [] && AllReady(Configs, Received) then SnapshotsOn(Configs, Received)
                       else NoSnapshots(Configs))
    }

    constructor (configs: seq<UsableConfig>)
      ensures Valid() && fresh(Repr) && Received == [] && Configs == Named(configs)
    {
      indicators, snapshots := map[], map[];
      Configs, Received := map[], [];
      Repr := {this};
      new;
      hide Indicator.Holds, Indicator.Repr;
      var i := 0;
      while i < |configs|
        invariant i <= |configs| && Configs == Named(configs[..i]) && Received == []
        invariant Separate() && fresh(Repr)
        invariant forall name :: name in indicators ==> indicators[name].Holds(Configs[name], [])
        invariant snapshots == NoSnapshots(Configs)
      {
        var indicator := Create(configs[i]);
        Add(configs[i], indicator);
        assert configs[..i + 1][..i] == configs[..i];
        i := i + 1;
      }
      assert configs[..i] == configs;
    }

    method Add(config: UsableConfig, indicator: Indicator)
      requires Separate() && Received == []
      requires forall name :: name in indicators ==> indicators[name].Holds(Configs[name], [])
      requires snapshots == NoSnapshots(Configs)
      requires indicator.Holds(config, []) && indicator.Repr() !! Repr
      modifies this
      ensures Separate() && Repr == old(Repr) + indicator.Repr() && Received == []
      ensures Configs == old(Configs)[Name(config) := config]
      ensures forall name :: name in indicators ==> indicators[name].Holds(Configs[name], [])
      ensures snapshots == NoSnapshots(Configs)
    {
      hide Indicator.Holds, Indicator.Repr, Name, NoSnapshots;
      var name := Name(config);
      NoSnapshotsAdd(Configs, name, config);
      ApartAdd(this, Repr, indicators, name, indicator);
      indicators := indicators[name := indicator];
      snapshots := snapshots[name := map[]];
      Configs := Configs[name := config];
      Repr := Repr + indicator.Repr();
    }

    predicate IsReady()
      requires Separate() && forall name :: name in indicators ==> indicators[name].Holds(Configs[name], Received)
      reads this, Repr
      ensures IsReady() <==> AllReady(Configs, Received)
    {
      forall name | name in indicators :: indicators[name].IsReady(Configs[name], Received)
    }

    /** Returns what is sent to the subscribers, if anything. */
    method OnBar(bar: OHLCV) returns (sent: Option<Snapshots>)
      requires Valid()
      modifies Repr
      ensures Valid() && Repr == old(Repr) && Configs == old(Configs)
      ensures Received == old(Received) + [bar]
      ensures sent == if AllReady(Configs, Received) then Some(SnapshotsOn(Configs, Received)) else None
    {
      WriteAll(bar);
      if IsReady() {
        UpdateSnapshots();
        return Some(snapshots);
      }
      forall name | name in Configs && !ReadyOn(Configs[name], Received)
        ensures !ReadyOn(Configs[name], old(Received))
      {
        ReadyStays(Configs[name], old(Received), bar);
      }
      return None;
    }

    method WriteAll(bar: OHLCV)
      requires Valid()
      modifies Repr
      ensures Separate() && Repr == old(Repr) && Configs == old(Configs)
      ensures Received == old(Received) + [bar]
      ensures forall name :: name in indicators ==> indicators[name].Holds(Configs[name], Received)
      ensures snapshots == old(snapshots)
    {
      hide Indicator.Holds, Indicator.Repr;
      var todo := indicators.Keys;
      ghost var now := Received + [bar];
      while todo != {}
        invariant todo <= indicators.Keys
        invariant unchanged(this)
        invariant forall name :: name in indicators ==>
                    indicators[name].Holds(Configs[name], if name in todo then Received else now)
      {
        var name :| name in todo;
        indicators[name].Write(bar, Configs[name], Received);
        todo := todo - {name};
      }
      Received := now;
    }

    method UpdateSnapshots()
      requires Separate() && snapshots.Keys == Configs.Keys
      requires forall name :: name in indicators ==> indicators[name].Holds(Configs[name], Received)
      requires AllReady(Configs, Received)
      modifies this`snapshots
      ensures snapshots == SnapshotsOn(Configs, Received)
    {
      hide Indicator.Holds, SnapshotOn, ReadyOn;
      var updated := snapshots;
      var todo := indicators.Keys;
      while todo != {}
        invariant todo <= indicators.Keys && updated.Keys == Configs.Keys
        invariant forall name :: name in indicators && name !in todo ==>
                    updated[name] == SnapshotOn(Configs[name], Received)
      {
        var name :| name in todo;
        // Taking the value is the proof that no read throws.
        var snapshot := indicators[name].Read(Configs[name], Received);
        updated := updated[name := snapshot.value];
        todo := todo - {name};
      }
      snapshots := updated;
    }
  }

  /** An indicator that is ready stays ready. */
  lemma ReadyStays(c: UsableConfig, bars: seq<OHLCV>, bar: OHLCV)
    ensures ReadyOn(c, bars) ==> ReadyOn(c, bars + [bar])
  {
  }

  // ---- What is sent, indicator by indicator ----

  predicate SameKind(a: Config, b: Config) {
    a.EmaConfig? == b.EmaConfig? && a.AtrConfig? == b.AtrConfig? && a.MacdConfig? == b.MacdConfig?
  }

  /** The values of each kind under their keys. */
  lemma SnapshotExactly(c: UsableConfig, bars: seq<OHLCV>)
    ensures var r := SnapshotOn(c, bars);
            match c
            case EmaConfig(p) => r == map["ema" := Ema(p, Closes(bars))]
            case AtrConfig(p) => r == map["atr" := Atr(p, bars)]
            case MacdConfig(f, s, g) =>
              && r.Keys == {"macd", "signal", "histogram"}
              && r["macd"] == Ema(f, Closes(bars)) - Ema(s, Closes(bars))
              && r["signal"] == Ema(g, SignalInputs(f, s, Closes(bars)))
              && r["histogram"] == r["macd"] - r["signal"]
  {
    hide Ema, Atr, SignalInputs;
  }

  /** Of the configurations of one kind the last one counts; its values are under the name of its kind. */
  lemma SentExactly(configs: seq<UsableConfig>, bars: seq<OHLCV>, i: nat)
    requires i < |configs| && forall j :: i < j < |configs| ==> !SameKind(configs[j], configs[i])
    ensures var sent := SnapshotsOn(Named(configs), bars);
            var name :=
              match configs[i]
              case EmaConfig(_) => "EMA"
              case AtrConfig(_) => "ATR"
              case MacdConfig(_, _, _) => "MACD";
            name in sent && sent[name] == SnapshotOn(configs[i], bars)
  {
    hide SnapshotOn;
    forall j | i < j < |configs|
      ensures Name(configs[j]) != Name(configs[i])
    {
      assert !SameKind(configs[j], configs[i]);
    }
    NamedExactly(configs, Name(configs[i]));
  }

  /** Nothing else is sent. */
  lemma SentOnly(configs: seq<UsableConfig>, bars: seq<OHLCV>)
    ensures var sent := SnapshotsOn(Named(configs), bars);
            && sent.Keys <= {"EMA", "ATR", "MACD"}
            && ("EMA" in sent <==> exists c :: c in configs && c.EmaConfig?)
            && ("ATR" in sent <==> exists c :: c in configs && c.AtrConfig?)
            && ("MACD" in sent <==> exists c :: c in configs && c.MacdConfig?)
  {
    KindNamed(configs, "EMA");
    KindNamed(configs, "ATR");
    KindNamed(configs, "MACD");
    forall name | name in Named(configs)
      ensures name in {"EMA", "ATR", "MACD"}
    {
      assert Name(Named(configs)[name]) == name;
    }
  }

  lemma KindNamed(configs: seq<UsableConfig>, name: string)
    ensures name in Named(configs) <==> exists c :: c in configs && Name(c) == name
  {
    NamedExactly(configs, name);
    if i :| 0 <= i < |configs| && Name(configs[i]) == name {
      assert configs[i] in configs;
    }
  }

  // ---- How long the engine warms up ----

  /** The number of bars after which an indicator is ready. */
  function WarmUp(c: UsableConfig): nat {
    match c
    case EmaConfig(p) => p
    case AtrConfig(p) => p + 1
    case MacdConfig(f, s, g) => Larger(f, s) + g
  }

  /** The number of bars after which all indicators are ready. */
  function WarmUpOf(configs: map<string, UsableConfig>): nat {
    Larger(Larger(WarmUpAt(configs, "EMA"), WarmUpAt(configs, "ATR")), WarmUpAt(configs, "MACD"))
  }

  function WarmUpAt(configs: map<string, UsableConfig>, name: string): nat {
    if name in configs then WarmUp(configs[name]) else 0
  }

  /** No bar but possibly the last closes at the value that the average true range takes for "none". */
  predicate NoSentinel(bars: seq<OHLCV>) {
    forall i :: 0 <= i < |bars| - 1 ==> bars[i].close != NO_CLOSE
  }

  lemma ReadyExactly(c: UsableConfig, bars: seq<OHLCV>)
    requires c.AtrConfig? ==> NoSentinel(bars)
    ensures ReadyOn(c, bars) <==> |bars| >= WarmUp(c)
  {
    if c.AtrConfig? {
      ReadyAfter(c.period, bars);
    }
  }

  /** The engine is ready exactly from the longest warm-up on. */
  lemma AllReadyExactly(configs: seq<UsableConfig>, bars: seq<OHLCV>)
    requires "ATR" in Named(configs) ==> NoSentinel(bars)
    ensures AllReady(Named(configs), bars) <==> |bars| >= WarmUpOf(Named(configs))
  {
    var named := Named(configs);
    forall name | name in named
      ensures ReadyOn(named[name], bars) <==> |bars| >= WarmUpAt(named, name)
      ensures name == "EMA" || name == "ATR" || name == "MACD"
    {
      ReadyExactly(named[name], bars);
      assert Name(named[name]) == name;
    }
  }
}
