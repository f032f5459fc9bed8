/** The order codec against a schema: what it accepts, that it loses nothing, and the form
    that it normalises to. */
module OrderCodecLaws {
  import opened Wrappers
  import opened Json
  import opened EnumSerialization
  import opened OrderCodec

  // ---- The schema ----

  datatype Kind =
    | TextKind
    | FlagKind
    | AssetClassKind
    | OrderClassKind
    | OrderTypeKind
    | SideKind
    | TimeInForceKind
    | StatusKind
    | IntentKind
    | LegsKind

  datatype Member = Member(key: string, kind: Kind)

  const REQUIRED: seq<Member> := [
    Member("id", TextKind),
    Member("client_order_id", TextKind),
    Member("created_at", TextKind),
    Member("asset_id", TextKind),
    Member("symbol", TextKind),
    Member("asset_class", AssetClassKind),
    Member("filled_qty", TextKind),
    Member("order_class", OrderClassKind),
    Member("order_type", OrderTypeKind),
    Member("side", SideKind),
    Member("time_in_force", TimeInForceKind),
    Member("status", StatusKind),
    Member("extended_hours", FlagKind)
  ]

  const TIMES: seq<Member> := [
    Member("updated_at", TextKind),
    Member("submitted_at", TextKind),
    Member("filled_at", TextKind),
    Member("expired_at", TextKind),
    Member("canceled_at", TextKind),
    Member("failed_at", TextKind),
    Member("replaced_at", TextKind),
    Member("replaced_by", TextKind),
    Member("replaces", TextKind)
  ]

  const PRICES: seq<Member> := [
    Member("notional", TextKind),
    Member("qty", TextKind),
    Member("filled_avg_price", TextKind),
    Member("limit_price", TextKind),
    Member("stop_price", TextKind),
    Member("trail_percent", TextKind),
    Member("trail_price", TextKind),
    Member("hwm", TextKind)
  ]

  const TAIL: seq<Member> := [
    Member("position_intent", IntentKind),
    Member("legs", LegsKind)
  ]

  const OPTIONAL := TIMES + PRICES + TAIL
  const SCHEMA := REQUIRED + OPTIONAL

  predicate Apart(a: seq<Member>, b: seq<Member>) {
    forall i, j :: 0 <= i < |a| && 0 <= j < |b| ==> a[i].key != b[j].key
  }

  predicate Distinct(a: seq<Member>) {
    forall i, j :: 0 <= i < j < |a| ==> a[i].key != a[j].key
  }

  lemma DistinctConcat(a: seq<Member>, b: seq<Member>)
    requires Distinct(a) && Distinct(b) && Apart(a, b)
    ensures Distinct(a + b)
  {
  }

  lemma ApartConcat(a: seq<Member>, b: seq<Member>, c: seq<Member>)
    requires Apart(a, b) && Apart(a, c)
    ensures Apart(a, b + c)
  {
  }

  lemma RequiredDistinct()
    ensures Distinct(REQUIRED)
  {
    hide Distinct, Apart;
    FirstRequiredDistinct();
    LastRequiredDistinct();
    RequiredHalvesApart();
    DistinctConcat(REQUIRED[..7], REQUIRED[7..]);
    assert REQUIRED[..7] + REQUIRED[7..] == REQUIRED;
  }

  lemma FirstRequiredDistinct()
    ensures Distinct(REQUIRED[..7])
  {
  }

  lemma LastRequiredDistinct()
    ensures Distinct(REQUIRED[7..])
  {
  }

  lemma RequiredHalvesApart()
    ensures Apart(REQUIRED[..7], REQUIRED[7..])
  {
  }

  lemma TimesDistinct()
    ensures Distinct(TIMES)
  {
  }

  lemma PricesDistinct()
    ensures Distinct(PRICES) && Distinct(TAIL) && Apart(PRICES, TAIL)
  {
  }

  lemma RequiredFromTimes()
    ensures Apart(REQUIRED, TIMES)
  {
  }

  lemma RequiredFromPrices()
    ensures Apart(REQUIRED, PRICES)
  {
  }

  lemma TailApart()
    ensures Apart(REQUIRED, TAIL) && Apart(TIMES, TAIL)
  {
  }

  lemma TimesFromPrices()
    ensures Apart(TIMES, PRICES)
  {
  }

  lemma KeysDistinct()
    ensures Distinct(SCHEMA)
  {
    hide Apart, Distinct;
    RequiredDistinct();
    TimesDistinct();
    PricesDistinct();
    RequiredFromTimes();
    RequiredFromPrices();
    TailApart();
    TimesFromPrices();
    DistinctConcat(PRICES, TAIL);
    ApartConcat(TIMES, PRICES, TAIL);
    DistinctConcat(TIMES, PRICES + TAIL);
    assert TIMES + (PRICES + TAIL) == OPTIONAL;
    ApartConcat(REQUIRED, PRICES, TAIL);
    ApartConcat(REQUIRED, TIMES, PRICES + TAIL);
    DistinctConcat(REQUIRED, OPTIONAL);
  }

  // ---- Round trip ----

  predicate KeysOf(entries: seq<Entry>, members: seq<Member>) {
    |entries| == |members| && forall i :: 0 <= i < |entries| ==> entries[i].0 == members[i].key
  }

  lemma EntriesKeys(o: Order)
    ensures KeysOf(OrderEntries(o), SCHEMA)
  {
    RequiredKeys(o);
    TimeKeys(o);
    PriceKeys(o);
    TailKeys(o);
    hide KeysOf, RequiredEntries, TimeEntries, PriceEntries, IntentEntry, LegsEntry;
    var tail := [("position_intent", IntentEntry(o.positionIntent)), ("legs", LegsEntry(o.legs))];
    KeysConcat(RequiredEntries(o), REQUIRED, TimeEntries(o), TIMES);
    KeysConcat(RequiredEntries(o) + TimeEntries(o), REQUIRED + TIMES, PriceEntries(o), PRICES);
    KeysConcat(RequiredEntries(o) + TimeEntries(o) + PriceEntries(o), REQUIRED + TIMES + PRICES, tail, TAIL);
    assert REQUIRED + TIMES + PRICES + TAIL == SCHEMA;
  }

  lemma TailKeys(o: Order)
    ensures KeysOf([("position_intent", IntentEntry(o.positionIntent)), ("legs", LegsEntry(o.legs))], TAIL)
  {
  }

  lemma RequiredKeys(o: Order)
    ensures KeysOf(RequiredEntries(o), REQUIRED)
  {
    hide PrintAssetClass, PrintOrderClass, PrintOrderType, PrintOrderSide, PrintTimeInForce, PrintOrderStatus;
  }

  lemma TimeKeys(o: Order)
    ensures KeysOf(TimeEntries(o), TIMES)
  {
  }

  lemma PriceKeys(o: Order)
    ensures KeysOf(PriceEntries(o), PRICES)
  {
  }

  lemma KeysConcat(e: seq<Entry>, m: seq<Member>, f: seq<Entry>, n: seq<Member>)
    requires KeysOf(e, m) && KeysOf(f, n)
    ensures KeysOf(e + f, m + n)
  {
  }

  /** What a parser finds in the printed order under each key. */
  ghost predicate Holds(obj: Fields, entry: Entry) {
    match entry.1
    case None => entry.0 !in obj
    case Some(j) => entry.0 in obj && obj[entry.0] == j
  }

  function Printed(o: Order): Fields {
    PrintOrder(o).fields
  }

  lemma PrintedHolds(o: Order)
    ensures forall i :: 0 <= i < |OrderEntries(o)| ==> Holds(Printed(o), OrderEntries(o)[i])
  {
    hide OrderEntries;
    EntriesKeys(o);
    KeysDistinct();
    AssembleHas(OrderEntries(o));
  }

  lemma GroupsHold(o: Order)
    ensures forall i :: 0 <= i < |RequiredEntries(o)| ==> Holds(Printed(o), RequiredEntries(o)[i])
    ensures forall i :: 0 <= i < |TimeEntries(o)| ==> Holds(Printed(o), TimeEntries(o)[i])
    ensures forall i :: 0 <= i < |PriceEntries(o)| ==> Holds(Printed(o), PriceEntries(o)[i])
    ensures Holds(Printed(o), ("position_intent", IntentEntry(o.positionIntent)))
    ensures Holds(Printed(o), ("legs", LegsEntry(o.legs)))
  {
    hide RequiredEntries, TimeEntries, PriceEntries, Holds, Printed;
    PrintedHolds(o);
    var e, r, t, p := OrderEntries(o), RequiredEntries(o), TimeEntries(o), PriceEntries(o);
    forall i | 0 <= i < |r|
      ensures Holds(Printed(o), r[i])
    {
      assert e[i] == r[i];
    }
    forall i | 0 <= i < |t|
      ensures Holds(Printed(o), t[i])
    {
      assert e[|r| + i] == t[i];
    }
    forall i | 0 <= i < |p|
      ensures Holds(Printed(o), p[i])
    {
      assert e[|r| + |t| + i] == p[i];
    }
    var n := |r| + |t| + |p|;
    assert e[n] == ("position_intent", IntentEntry(o.positionIntent));
    assert e[n + 1] == ("legs", LegsEntry(o.legs));
  }

  lemma OptionalHolds(obj: Fields, key: string, s: Option<string>)
    requires Holds(obj, (key, Optional(s)))
    ensures OptionalText(obj, key) == Ok(s)
  {
  }

  /** The part of an order that ParseRequired fills in. */
  function RequiredPart(o: Order): Order {
    Order(
      o.id, o.clientOrderId, o.createdAt, o.assetId, o.symbol, o.assetClass, o.filledQty,
      o.orderClass, o.orderType, o.side, o.timeInForce, o.status, o.extendedHours,
      None, None, None, None, None, None, None, None, None,
      None, None, None, None, None, None, None, None, None, NoLegs)
  }

  function TimedPart(o: Order): Order {
    RequiredPart(o).(
      updatedAt := o.updatedAt, submittedAt := o.submittedAt, filledAt := o.filledAt,
      expiredAt := o.expiredAt, canceledAt := o.canceledAt, failedAt := o.failedAt,
      replacedAt := o.replacedAt, replacedBy := o.replacedBy, replacing := o.replacing)
  }

  function PricedPart(o: Order): Order {
    TimedPart(o).(
      notional := o.notional, qty := o.qty, filledAvgPrice := o.filledAvgPrice,
      limitPrice := o.limitPrice, stopPrice := o.stopPrice, trailPercent := o.trailPercent,
      trailPrice := o.trailPrice, hwm := o.hwm)
  }

  lemma RequiredRoundTrip(o: Order)
    ensures ParseRequired(Printed(o)) == Ok(RequiredPart(o))
  {
    hide Printed;
    hide PrintAssetClass, PrintOrderClass, PrintOrderType, PrintOrderSide, PrintTimeInForce, PrintOrderStatus;
    hide ParseAssetClass, ParseOrderClass, ParseOrderType, ParseOrderSide, ParseTimeInForce, ParseOrderStatus;
    AssetClassRoundTrip(o.assetClass, Null);
    OrderClassRoundTrip(o.orderClass, Null);
    OrderTypeRoundTrip(o.orderType, Null);
    OrderSideRoundTrip(o.side, Null);
    TimeInForceRoundTrip(o.timeInForce, Null);
    OrderStatusRoundTrip(o.status, Null);
    GroupsHold(o);
    var e, obj := RequiredEntries(o), Printed(o);
    assert Holds(obj, e[0]);
    assert Holds(obj, e[1]);
    assert Holds(obj, e[2]);
    assert Holds(obj, e[3]);
    assert Holds(obj, e[4]);
    assert Holds(obj, e[5]);
    assert Holds(obj, e[6]);
    assert Holds(obj, e[7]);
    assert Holds(obj, e[8]);
    assert Holds(obj, e[9]);
    assert Holds(obj, e[10]);
    assert Holds(obj, e[11]);
    assert Holds(obj, e[12]);
  }

  lemma TimesRoundTrip(o: Order)
    ensures ParseTimes(Printed(o), RequiredPart(o)) == Ok(TimedPart(o))
  {
    hide Printed, OptionalText, Holds, Optional;
    GroupsHold(o);
    var e, obj := TimeEntries(o), Printed(o);
    assert e[0] == ("updated_at", Optional(o.updatedAt));
    OptionalHolds(obj, "updated_at", o.updatedAt);
    assert e[1] == ("submitted_at", Optional(o.submittedAt));
    OptionalHolds(obj, "submitted_at", o.submittedAt);
    assert e[2] == ("filled_at", Optional(o.filledAt));
    OptionalHolds(obj, "filled_at", o.filledAt);
    assert e[3] == ("expired_at", Optional(o.expiredAt));
    OptionalHolds(obj, "expired_at", o.expiredAt);
    assert e[4] == ("canceled_at", Optional(o.canceledAt));
    OptionalHolds(obj, "canceled_at", o.canceledAt);
    assert e[5] == ("failed_at", Optional(o.failedAt));
    OptionalHolds(obj, "failed_at", o.failedAt);
    assert e[6] == ("replaced_at", Optional(o.replacedAt));
    OptionalHolds(obj, "replaced_at", o.replacedAt);
    assert e[7] == ("replaced_by", Optional(o.replacedBy));
    OptionalHolds(obj, "replaced_by", o.replacedBy);
    assert e[8] == ("replaces", Optional(o.replacing));
    OptionalHolds(obj, "replaces", o.replacing);
  }

  lemma PricesRoundTrip(o: Order)
    ensures ParsePrices(Printed(o), TimedPart(o)) == Ok(PricedPart(o))
  {
    hide Printed, OptionalText, Holds, Optional;
    GroupsHold(o);
    var e, obj := PriceEntries(o), Printed(o);
    assert e[0] == ("notional", Optional(o.notional));
    OptionalHolds(obj, "notional", o.notional);
    assert e[1] == ("qty", Optional(o.qty));
    OptionalHolds(obj, "qty", o.qty);
    assert e[2] == ("filled_avg_price", Optional(o.filledAvgPrice));
    OptionalHolds(obj, "filled_avg_price", o.filledAvgPrice);
    assert e[3] == ("limit_price", Optional(o.limitPrice));
    OptionalHolds(obj, "limit_price", o.limitPrice);
    assert e[4] == ("stop_price", Optional(o.stopPrice));
    OptionalHolds(obj, "stop_price", o.stopPrice);
    assert e[5] == ("trail_percent", Optional(o.trailPercent));
    OptionalHolds(obj, "trail_percent", o.trailPercent);
    assert e[6] == ("trail_price", Optional(o.trailPrice));
    OptionalHolds(obj, "trail_price", o.trailPrice);
    assert e[7] == ("hwm", Optional(o.hwm));
    OptionalHolds(obj, "hwm", o.hwm);
  }

  lemma IntentRoundTrip(o: Order)
    ensures OptionalIntent(Printed(o)) == Ok(o.positionIntent)
  {
    hide Printed, PrintPositionIntent, ParsePositionIntent;
    GroupsHold(o);
    if o.positionIntent.Some? {
      PositionIntentRoundTrip(o.positionIntent.value, Null);
      IntentNotNull(o.positionIntent.value);
    }
  }

  lemma IntentNotNull(e: PositionIntent)
    ensures PrintPositionIntent(e).Str?
  {
  }

  /** Parsing what was printed gives the order back, with its legs to any depth. */
  lemma {:induction false} OrderRoundTrip(o: Order)
    ensures ParseOrder(PrintOrder(o)) == Ok(o)
    decreases o
  {
    hide RequiredEntries, TimeEntries, PriceEntries, OrderEntries;
    hide ParseRequired, ParseTimes, ParsePrices, OptionalIntent;
    RequiredRoundTrip(o);
    TimesRoundTrip(o);
    PricesRoundTrip(o);
    IntentRoundTrip(o);
    GroupsHold(o);
    if o.legs.Legs? {
      forall i | 0 <= i < |o.legs.orders|
        ensures ParseOrder(PrintOrders(o.legs.orders)[i]) == Ok(o.legs.orders[i])
      {
        OrderRoundTrip(o.legs.orders[i]);
      }
      var r := ParseOrders(PrintOrders(o.legs.orders));
      assert forall i :: 0 <= i < |o.legs.orders| ==> r.value[i] == o.legs.orders[i];
      assert r.value == o.legs.orders;
    }
  }

  // ---- Which field is under which key ----

  predicate Shows(f: Fields, key: string, j: Json) {
    key in f && f[key] == j
  }

  predicate ShowsIfAny(f: Fields, key: string, s: Option<string>) {
    match s
    case None => key !in f
    case Some(text) => Shows(f, key, Str(text))
  }

  lemma RequiredShown(o: Order)
    ensures Shows(PrintOrder(o).fields, "id", Str(o.id))
    ensures Shows(PrintOrder(o).fields, "client_order_id", Str(o.clientOrderId))
    ensures Shows(PrintOrder(o).fields, "created_at", Str(o.createdAt))
    ensures Shows(PrintOrder(o).fields, "asset_id", Str(o.assetId))
    ensures Shows(PrintOrder(o).fields, "symbol", Str(o.symbol))
    ensures Shows(PrintOrder(o).fields, "asset_class", PrintAssetClass(o.assetClass))
    ensures Shows(PrintOrder(o).fields, "filled_qty", Str(o.filledQty))
    ensures Shows(PrintOrder(o).fields, "order_class", PrintOrderClass(o.orderClass))
    ensures Shows(PrintOrder(o).fields, "order_type", PrintOrderType(o.orderType))
    ensures Shows(PrintOrder(o).fields, "side", PrintOrderSide(o.side))
    ensures Shows(PrintOrder(o).fields, "time_in_force", PrintTimeInForce(o.timeInForce))
    ensures Shows(PrintOrder(o).fields, "status", PrintOrderStatus(o.status))
    ensures Shows(PrintOrder(o).fields, "extended_hours", Bool(o.extendedHours))
  {
    hide Printed;
    hide PrintAssetClass, PrintOrderClass, PrintOrderType, PrintOrderSide, PrintTimeInForce, PrintOrderStatus;
    GroupsHold(o);
    var e, f := RequiredEntries(o), Printed(o);
    PrintedFields(o);
    assert Holds(f, e[0]);
    assert Holds(f, e[1]);
    assert Holds(f, e[2]);
    assert Holds(f, e[3]);
    assert Holds(f, e[4]);
    assert Holds(f, e[5]);
    assert Holds(f, e[6]);
    assert Holds(f, e[7]);
    assert Holds(f, e[8]);
    assert Holds(f, e[9]);
    assert Holds(f, e[10]);
    assert Holds(f, e[11]);
    assert Holds(f, e[12]);
  }

  lemma PrintedFields(o: Order)
    ensures PrintOrder(o).fields == Printed(o)
  {
  }

  lemma TimesShown(o: Order)
    ensures ShowsIfAny(PrintOrder(o).fields, "updated_at", o.updatedAt)
    ensures ShowsIfAny(PrintOrder(o).fields, "submitted_at", o.submittedAt)
    ensures ShowsIfAny(PrintOrder(o).fields, "filled_at", o.filledAt)
    ensures ShowsIfAny(PrintOrder(o).fields, "expired_at", o.expiredAt)
    ensures ShowsIfAny(PrintOrder(o).fields, "canceled_at", o.canceledAt)
    ensures ShowsIfAny(PrintOrder(o).fields, "failed_at", o.failedAt)
    ensures ShowsIfAny(PrintOrder(o).fields, "replaced_at", o.replacedAt)
    ensures ShowsIfAny(PrintOrder(o).fields, "replaced_by", o.replacedBy)
    ensures ShowsIfAny(PrintOrder(o).fields, "replaces", o.replacing)
  {
    hide Printed;
    GroupsHold(o);
    var e, f := TimeEntries(o), Printed(o);
    PrintedFields(o);
    assert Holds(f, e[0]);
    assert Holds(f, e[1]);
    assert Holds(f, e[2]);
    assert Holds(f, e[3]);
    assert Holds(f, e[4]);
    assert Holds(f, e[5]);
    assert Holds(f, e[6]);
    assert Holds(f, e[7]);
    assert Holds(f, e[8]);
  }

  lemma PricesShown(o: Order)
    ensures ShowsIfAny(PrintOrder(o).fields, "notional", o.notional)
    ensures ShowsIfAny(PrintOrder(o).fields, "qty", o.qty)
    ensures ShowsIfAny(PrintOrder(o).fields, "filled_avg_price", o.filledAvgPrice)
    ensures ShowsIfAny(PrintOrder(o).fields, "limit_price", o.limitPrice)
    ensures ShowsIfAny(PrintOrder(o).fields, "stop_price", o.stopPrice)
    ensures ShowsIfAny(PrintOrder(o).fields, "trail_percent", o.trailPercent)
    ensures ShowsIfAny(PrintOrder(o).fields, "trail_price", o.trailPrice)
    ensures ShowsIfAny(PrintOrder(o).fields, "hwm", o.hwm)
  {
    hide Printed;
    GroupsHold(o);
    var e, f := PriceEntries(o), Printed(o);
    PrintedFields(o);
    assert Holds(f, e[0]);
    assert Holds(f, e[1]);
    assert Holds(f, e[2]);
    assert Holds(f, e[3]);
    assert Holds(f, e[4]);
    assert Holds(f, e[5]);
    assert Holds(f, e[6]);
    assert Holds(f, e[7]);
  }

  lemma TailShown(o: Order)
    ensures var f := PrintOrder(o).fields;
            && (match o.positionIntent
                case None => "position_intent" !in f
                case Some(i) => Shows(f, "position_intent", PrintPositionIntent(i)))
            && (match o.legs
                case NoLegs => "legs" !in f
                case Legs(orders) =>
                  && "legs" in f && f["legs"].Arr? && |f["legs"].items| == |orders|
                  && forall i :: 0 <= i < |orders| ==> f["legs"].items[i] == PrintOrder(orders[i]))
  {
    hide Printed, PrintPositionIntent;
    GroupsHold(o);
    PrintedFields(o);
  }
}
