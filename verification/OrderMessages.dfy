/** The messages around orders: closed positions, which carry an order, and market orders by
    notional value. */
module OrderMessages {
  import opened Wrappers
  import opened Json
  import opened EnumSerialization
  import opened OrderCodec
  import Laws = OrderCodecLaws
  import NormalForm = OrderCodecNormalForm

  // ---- Closed positions ----

  datatype PositionClosed = PositionClosed(symbol: string, status: Int32, body: Order)

  function PrintClosed(p: PositionClosed): Json {
    Obj(map["symbol" := Str(p.symbol), "status" := Num(p.status), "body" := PrintOrder(p.body)])
  }

  function ParseClosed(j: Json): Result<PositionClosed, JsonError> {
    var obj :- AsObject(j);
    var symbol :- TextAt(obj, "symbol");
    var number :- At(obj, "status");
    var status :- ToInt(number);
    var details :- At(obj, "body");
    var body :- ParseOrder(details);
    Ok(PositionClosed(symbol, status, body))
  }

  function PrintClosedList(list: seq<PositionClosed>): Json {
    Arr(seq(|list|, i requires 0 <= i < |list| => PrintClosed(list[i])))
  }

  function ParseClosedItems(items: seq<Json>): (r: Result<seq<PositionClosed>, JsonError>)
    ensures r.Ok? <==> forall i :: 0 <= i < |items| ==> ParseClosed(items[i]).Ok?
    ensures r.Ok? ==> |r.value| == |items| && forall i :: 0 <= i < |items| ==> ParseClosed(items[i]) == Ok(r.value[i])
  {
    if items == [] then Ok([])
    else
      var first :- ParseClosed(items[0]);
      var rest :- ParseClosedItems(items[1..]);
      Ok([first] + rest)
  }

  function ParseClosedList(j: Json): Result<seq<PositionClosed>, JsonError> {
    if j.Arr? then ParseClosedItems(j.items) else Err(WrongType)
  }

  lemma ClosedRoundTrip(p: PositionClosed)
    ensures ParseClosed(PrintClosed(p)) == Ok(p)
  {
    hide PrintOrder, ParseOrder;
    Laws.OrderRoundTrip(p.body);
  }

  lemma ClosedShown(p: PositionClosed)
    ensures var f := PrintClosed(p).fields;
            && f.Keys == {"symbol", "status", "body"}
            && f["symbol"] == Str(p.symbol) && f["status"] == Num(p.status) && f["body"] == PrintOrder(p.body)
  {
    hide PrintOrder;
  }

  /** Parsing the printed list of any closed positions returns that list. */
  lemma ClosedListRoundTrip(list: seq<PositionClosed>)
    ensures ParseClosedList(PrintClosedList(list)) == Ok(list)
  {
    hide ParseClosed, PrintClosed, ParseClosedItems;
    var items := PrintClosedList(list).items;
    forall i | 0 <= i < |items|
      ensures ParseClosed(items[i]) == Ok(list[i])
    {
      ClosedRoundTrip(list[i]);
    }
    assert ParseClosedItems(items).value == list;
  }

  /** A number of integral value, written as an integer or not, within 32 bits. */
  predicate IsInt32(j: Json) {
    exists n: Int32 :: j == Num(n) || j == Real(n as real)
  }

  predicate ClosedConforms(j: Json) {
    && j.Obj?
    && "symbol" in j.fields && j.fields["symbol"].Str?
    && "status" in j.fields && IsInt32(j.fields["status"])
    && "body" in j.fields && NormalForm.Conforms(j.fields["body"])
  }

  function IntegerOf(j: Json): int {
    match j
    case Num(n) => n
    case Real(r) => r.Floor
    case _ => 0
  }

  /** The status becomes an integer, the body takes its normal form, all other members go. */
  function NormalClosed(j: Json): Json
    requires ClosedConforms(j)
  {
    Obj(map["symbol" := j.fields["symbol"], "status" := Num(IntegerOf(j.fields["status"])),
            "body" := NormalForm.NormalOrder(j.fields["body"])])
  }

  lemma IntExactly(j: Json)
    ensures ToInt(j).Ok? <==> IsInt32(j)
    ensures ToInt(j).Ok? ==> ToInt(j).value == IntegerOf(j)
  {
    if ToInt(j).Ok? {
      var i := ToInt(j).value;
      assert j == Num(i) || j == Real(i as real);
    }
    if IsInt32(j) {
      var i: Int32 :| j == Num(i) || j == Real(i as real);
      assert (i as real).Floor == i;
    }
  }

  lemma ClosedParseThenPrint(j: Json)
    ensures ParseClosed(j).Ok? <==> ClosedConforms(j)
    ensures ParseClosed(j).Ok? ==> PrintClosed(ParseClosed(j).value) == NormalClosed(j)
  {
    hide PrintOrder, ParseOrder, NormalForm.Conforms, NormalForm.NormalOrder, ToInt, IsInt32, IntegerOf;
    if j.Obj? && "status" in j.fields {
      IntExactly(j.fields["status"]);
    }
    if j.Obj? && "body" in j.fields {
      NormalForm.ParseThenPrint(j.fields["body"]);
    }
  }

  /** A list parses exactly when each of its items does, and prints as the list of their normal forms. */
  lemma ClosedListParseThenPrint(j: Json)
    ensures ParseClosedList(j).Ok? <==> j.Arr? && forall i :: 0 <= i < |j.items| ==> ClosedConforms(j.items[i])
    ensures ParseClosedList(j).Ok? ==>
              && PrintClosedList(ParseClosedList(j).value).Arr?
              && |PrintClosedList(ParseClosedList(j).value).items| == |j.items|
              && forall i :: 0 <= i < |j.items| ==>
                   ClosedConforms(j.items[i])
                   && PrintClosedList(ParseClosedList(j).value).items[i] == NormalClosed(j.items[i])
  {
    hide ParseClosed, PrintClosed, ClosedConforms, NormalClosed, ParseClosedItems;
    if j.Arr? {
      forall i | 0 <= i < |j.items|
        ensures ParseClosed(j.items[i]).Ok? <==> ClosedConforms(j.items[i])
        ensures ParseClosed(j.items[i]).Ok? ==> PrintClosed(ParseClosed(j.items[i]).value) == NormalClosed(j.items[i])
      {
        ClosedParseThenPrint(j.items[i]);
      }
    }
  }

  // ---- Market orders by notional value ----

  datatype NotionalOrder = NotionalOrder(
    symbol: string, notional: string, side: OrderSide, extendedHours: bool, clientOrderId: string)

  function PrintNotional(o: NotionalOrder): Json {
    var obj := map[
      "symbol" := Str(o.symbol),
      "notional" := Str(o.notional),
      "side" := PrintOrderSide(o.side),
      "type" := Str("market"),
      "time_in_force" := Str("day"),
      "extended_hours" := Bool(o.extendedHours)
    ];
    Obj(if o.clientOrderId != "" then obj["client_order_id" := Str(o.clientOrderId)] else obj)
  }

  function ParseNotional(j: Json): Result<NotionalOrder, JsonError> {
    var obj :- AsObject(j);
    var symbol :- TextAt(obj, "symbol");
    var notional :- TextAt(obj, "notional");
    var side :- EnumAt(obj, "side", ParseOrderSide);
    var extendedHours :- BoolAt(obj, "extended_hours");
    var clientOrderId :- if "client_order_id" in obj then TextAt(obj, "client_order_id") else Ok("");
    Ok(NotionalOrder(symbol, notional, side, extendedHours, clientOrderId))
  }

  lemma NotionalRoundTrip(o: NotionalOrder)
    ensures ParseNotional(PrintNotional(o)) == Ok(o)
  {
    hide PrintOrderSide, ParseOrderSide;
    OrderSideRoundTrip(o.side, PrintOrderSide(o.side));
  }

  /** Which field is under which key; the type and the time in force are fixed. */
  lemma NotionalShown(o: NotionalOrder)
    ensures var f := PrintNotional(o).fields;
            && Laws.Shows(f, "symbol", Str(o.symbol)) && Laws.Shows(f, "notional", Str(o.notional))
            && Laws.Shows(f, "side", Str(match o.side case BUY => "buy" case SELL => "sell"))
            && Laws.Shows(f, "extended_hours", Bool(o.extendedHours))
            && Laws.Shows(f, "type", Str("market")) && Laws.Shows(f, "time_in_force", Str("day"))
            && (if o.clientOrderId == "" then "client_order_id" !in f
                else Laws.Shows(f, "client_order_id", Str(o.clientOrderId)))
  {
    hide PrintOrderSide;
    OrderSideTexts(o.side, PrintOrderSide(o.side));
  }

  const NOTIONAL_KEYS := {"symbol", "notional", "side", "type", "time_in_force", "extended_hours"}

  /** Printing gives back what was parsed exactly for a market order of the day, without other
      members and without an empty client order id: the parser looks at neither the type nor
      the time in force, so it takes an order of another type for a market order. */
  lemma NotionalFixed(j: Json)
    requires ParseNotional(j).Ok?
    ensures PrintNotional(ParseNotional(j).value) == j <==>
              && (j.fields.Keys == NOTIONAL_KEYS
                  || (j.fields.Keys == NOTIONAL_KEYS + {"client_order_id"} && j.fields["client_order_id"] != Str("")))
              && j.fields["type"] == Str("market")
              && j.fields["time_in_force"] == Str("day")
  {
    hide PrintOrderSide, ParseOrderSide;
    OrderSideRoundTrip(BUY, j.fields["side"]);
    var p := PrintNotional(ParseNotional(j).value);
    assert p.fields.Keys == NOTIONAL_KEYS || p.fields.Keys == NOTIONAL_KEYS + {"client_order_id"};
    if && (j.fields.Keys == NOTIONAL_KEYS
           || (j.fields.Keys == NOTIONAL_KEYS + {"client_order_id"} && j.fields["client_order_id"] != Str("")))
       && j.fields["type"] == Str("market") && j.fields["time_in_force"] == Str("day") {
      assert p.fields.Keys == j.fields.Keys;
      assert forall key :: key in NOTIONAL_KEYS ==> p.fields[key] == j.fields[key];
      assert p.fields == j.fields;
    }
  }
}
