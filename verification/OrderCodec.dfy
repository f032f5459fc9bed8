/** Orders in JSON: the printer and the parser. */
module OrderCodec {
  import opened Wrappers
  import opened Json
  import opened EnumSerialization

  datatype Legs = NoLegs | Legs(orders: seq<Order>)

  datatype Order = Order(
    id: string,
    clientOrderId: string,
    createdAt: string,
    assetId: string,
    symbol: string,
    assetClass: AssetClass,
    filledQty: string,
    orderClass: OrderClass,
    orderType: OrderType,
    side: OrderSide,
    timeInForce: TimeInForce,
    status: OrderStatus,
    extendedHours: bool,
    updatedAt: Option<string>,
    submittedAt: Option<string>,
    filledAt: Option<string>,
    expiredAt: Option<string>,
    canceledAt: Option<string>,
    failedAt: Option<string>,
    replacedAt: Option<string>,
    replacedBy: Option<string>,
    replacing: Option<string>,
    notional: Option<string>,
    qty: Option<string>,
    filledAvgPrice: Option<string>,
    limitPrice: Option<string>,
    stopPrice: Option<string>,
    trailPercent: Option<string>,
    trailPrice: Option<string>,
    hwm: Option<string>,
    positionIntent: Option<PositionIntent>,
    legs: Legs)

  // ---- Printing: what goes under each key, nothing for an option without a value ----

  function Text(s: string): Option<Json> {
    Some(Str(s))
  }

  function Optional(s: Option<string>): Option<Json> {
    match s
    case None => None
    case Some(t) => Some(Str(t))
  }

  function IntentEntry(i: Option<PositionIntent>): Option<Json> {
    match i
    case None => None
    case Some(e) => Some(PrintPositionIntent(e))
  }

  function RequiredEntries(o: Order): seq<Entry> {
    [
      ("id", Text(o.id)),
      ("client_order_id", Text(o.clientOrderId)),
      ("created_at", Text(o.createdAt)),
      ("asset_id", Text(o.assetId)),
      ("symbol", Text(o.symbol)),
      ("asset_class", Some(PrintAssetClass(o.assetClass))),
      ("filled_qty", Text(o.filledQty)),
      ("order_class", Some(PrintOrderClass(o.orderClass))),
      ("order_type", Some(PrintOrderType(o.orderType))),
      ("side", Some(PrintOrderSide(o.side))),
      ("time_in_force", Some(PrintTimeInForce(o.timeInForce))),
      ("status", Some(PrintOrderStatus(o.status))),
      ("extended_hours", Some(Bool(o.extendedHours)))
    ]
  }

  function TimeEntries(o: Order): seq<Entry> {
    [
      ("updated_at", Optional(o.updatedAt)),
      ("submitted_at", Optional(o.submittedAt)),
      ("filled_at", Optional(o.filledAt)),
      ("expired_at", Optional(o.expiredAt)),
      ("canceled_at", Optional(o.canceledAt)),
      ("failed_at", Optional(o.failedAt)),
      ("replaced_at", Optional(o.replacedAt)),
      ("replaced_by", Optional(o.replacedBy)),
      ("replaces", Optional(o.replacing))
    ]
  }

  function PriceEntries(o: Order): seq<Entry> {
    [
      ("notional", Optional(o.notional)),
      ("qty", Optional(o.qty)),
      ("filled_avg_price", Optional(o.filledAvgPrice)),
      ("limit_price", Optional(o.limitPrice)),
      ("stop_price", Optional(o.stopPrice)),
      ("trail_percent", Optional(o.trailPercent)),
      ("trail_price", Optional(o.trailPrice)),
      ("hwm", Optional(o.hwm))
    ]
  }

  function PrintOrders(orders: seq<Order>): (r: seq<Json>)
    ensures |r| == |orders|
    ensures forall i :: 0 <= i < |r| ==> r[i] == PrintOrder(orders[i])
    decreases orders
  {
    seq(|orders|, i requires 0 <= i < |orders| => PrintOrder(orders[i]))
  }

  function LegsEntry(legs: Legs): Option<Json>
    decreases legs
  {
    match legs
    case NoLegs => None
    case Legs(orders) => Some(Arr(PrintOrders(orders)))
  }

  function OrderEntries(o: Order): seq<Entry>
    decreases o, 0
  {
    RequiredEntries(o) + TimeEntries(o) + PriceEntries(o)
    + [("position_intent", IntentEntry(o.positionIntent)), ("legs", LegsEntry(o.legs))]
  }

  function PrintOrder(o: Order): Json
    decreases o, 1
  {
    Obj(Assemble(OrderEntries(o)))
  }

  // ---- Parsing, in the order in which the members are read ----

  function EnumAt<E>(obj: Fields, key: string, parse: Json -> Result<E, JsonError>): Result<E, JsonError> {
    var j :- At(obj, key);
    parse(j)
  }

  function OptionalIntent(obj: Fields): Result<Option<PositionIntent>, JsonError> {
    match Present(obj, "position_intent")
    case None => Ok(None)
    case Some(j) =>
      var e :- ParsePositionIntent(j);
      Ok(Some(e))
  }

  function ParseRequired(obj: Fields): Result<Order, JsonError> {
    var id :- TextAt(obj, "id");
    var clientOrderId :- TextAt(obj, "client_order_id");
    var createdAt :- TextAt(obj, "created_at");
    var assetId :- TextAt(obj, "asset_id");
    var symbol :- TextAt(obj, "symbol");
    var assetClass :- EnumAt(obj, "asset_class", ParseAssetClass);
    var filledQty :- TextAt(obj, "filled_qty");
    var orderClass :- EnumAt(obj, "order_class", ParseOrderClass);
    var orderType :- EnumAt(obj, "order_type", ParseOrderType);
    var side :- EnumAt(obj, "side", ParseOrderSide);
    var timeInForce :- EnumAt(obj, "time_in_force", ParseTimeInForce);
    var status :- EnumAt(obj, "status", ParseOrderStatus);
    var extendedHours :- BoolAt(obj, "extended_hours");
    Ok(Order(
      id, clientOrderId, createdAt, assetId, symbol, assetClass, filledQty,
      orderClass, orderType, side, timeInForce, status, extendedHours,
      None, None, None, None, None, None, None, None, None,
      None, None, None, None, None, None, None, None, None, NoLegs))
  }

  function ParseTimes(obj: Fields, o: Order): Result<Order, JsonError> {
    var updatedAt :- OptionalText(obj, "updated_at");
    var submittedAt :- OptionalText(obj, "submitted_at");
    var filledAt :- OptionalText(obj, "filled_at");
    var expiredAt :- OptionalText(obj, "expired_at");
    var canceledAt :- OptionalText(obj, "canceled_at");
    var failedAt :- OptionalText(obj, "failed_at");
    var replacedAt :- OptionalText(obj, "replaced_at");
    var replacedBy :- OptionalText(obj, "replaced_by");
    var replacing :- OptionalText(obj, "replaces");
    Ok(o.(
      updatedAt := updatedAt, submittedAt := submittedAt, filledAt := filledAt, expiredAt := expiredAt,
      canceledAt := canceledAt, failedAt := failedAt, replacedAt := replacedAt, replacedBy := replacedBy,
      replacing := replacing))
  }

  function ParsePrices(obj: Fields, o: Order): Result<Order, JsonError> {
    var notional :- OptionalText(obj, "notional");
    var qty :- OptionalText(obj, "qty");
    var filledAvgPrice :- OptionalText(obj, "filled_avg_price");
    var limitPrice :- OptionalText(obj, "limit_price");
    var stopPrice :- OptionalText(obj, "stop_price");
    var trailPercent :- OptionalText(obj, "trail_percent");
    var trailPrice :- OptionalText(obj, "trail_price");
    var hwm :- OptionalText(obj, "hwm");
    Ok(o.(
      notional := notional, qty := qty, filledAvgPrice := filledAvgPrice, limitPrice := limitPrice,
      stopPrice := stopPrice, trailPercent := trailPercent, trailPrice := trailPrice, hwm := hwm))
  }

  /** All members but the legs. */
  function ParseMembers(obj: Fields): Result<Order, JsonError> {
    var required :- ParseRequired(obj);
    var timed :- ParseTimes(obj, required);
    var priced :- ParsePrices(obj, timed);
    var positionIntent :- OptionalIntent(obj);
    Ok(priced.(positionIntent := positionIntent))
  }

  function ParseOrder(j: Json): Result<Order, JsonError>
    decreases j, 1
  {
    var obj :- AsObject(j);
    var o :- ParseMembers(obj);
    if "legs" in j.fields && j.fields["legs"] != Null then
      if !j.fields["legs"].Arr? then Err(WrongType)
      else
        var orders :- ParseOrders(j.fields["legs"].items);
        Ok(o.(legs := Legs(orders)))
    else Ok(o)
  }

  function ParseOrders(items: seq<Json>): (r: Result<seq<Order>, JsonError>)
    ensures r.Ok? <==> forall i :: 0 <= i < |items| ==> ParseOrder(items[i]).Ok?
    ensures r.Ok? ==> |r.value| == |items| && forall i :: 0 <= i < |items| ==> ParseOrder(items[i]) == Ok(r.value[i])
    decreases items, 0
  {
    if items == [] then Ok([])
    else
      var first :- ParseOrder(items[0]);
      var rest :- ParseOrders(items[1..]);
      Ok([first] + rest)
  }
}
