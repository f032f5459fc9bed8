/** Enumerations in JSON: tables of values and their texts, searched from the front. */
module EnumSerialization {
  import opened Wrappers
  import opened Json

  datatype AssetClass = US_EQUITY | US_OPTION | CRYPTO
  datatype OrderClass = SIMPLE | BRACKET | OCO | OTO | MLEG
  datatype OrderType = MARKET | LIMIT | STOP | STOP_LIMIT | TRAILING_STOP
  datatype OrderSide = BUY | SELL
  datatype TimeInForce = DAY | GTC | OPG | CLS | IOC | FOK
  datatype OrderStatus =
    | NEW | PARTIALLY_FILLED | FILLED | DONE_FOR_DAY | CANCELED | EXPIRED | REPLACED | PENDING_CANCEL
    | PENDING_REPLACE | ACCEPTED | PENDING_NEW | ACCEPTED_FOR_BIDDING | STOPPED | REJECTED | SUSPENDED | CALCULATED
  datatype PositionIntent = BUY_TO_OPEN | BUY_TO_CLOSE | SELL_TO_OPEN | SELL_TO_CLOSE

  type Mappings<E> = seq<(E, string)>

  const ASSET_CLASSES: Mappings<AssetClass> :=
    [(US_EQUITY, "us_equity"), (US_OPTION, "us_option"), (CRYPTO, "crypto")]

  const ORDER_CLASSES: Mappings<OrderClass> :=
    [(SIMPLE, "simple"), (BRACKET, "bracket"), (OCO, "oco"), (OTO, "oto"), (MLEG, "mleg")]

  const ORDER_TYPES: Mappings<OrderType> :=
    [(MARKET, "market"), (LIMIT, "limit"), (STOP, "stop"), (STOP_LIMIT, "stop_limit"), (TRAILING_STOP, "trailing_stop")]

  const ORDER_SIDES: Mappings<OrderSide> := [(BUY, "buy"), (SELL, "sell")]

  const TIMES_IN_FORCE: Mappings<TimeInForce> :=
    [(DAY, "day"), (GTC, "gtc"), (OPG, "opg"), (CLS, "cls"), (IOC, "ioc"), (FOK, "fok")]

  const ORDER_STATUSES: Mappings<OrderStatus> :=
    [(NEW, "new"), (PARTIALLY_FILLED, "partially_filled"), (FILLED, "filled"), (DONE_FOR_DAY, "done_for_day"),
     (CANCELED, "canceled"), (EXPIRED, "expired"), (REPLACED, "replaced"), (PENDING_CANCEL, "pending_cancel"),
     (PENDING_REPLACE, "pending_replace"), (ACCEPTED, "accepted"), (PENDING_NEW, "pending_new"),
     (ACCEPTED_FOR_BIDDING, "accepted_for_bidding"), (STOPPED, "stopped"), (REJECTED, "rejected"),
     (SUSPENDED, "suspended"), (CALCULATED, "calculated")]

  const POSITION_INTENTS: Mappings<PositionIntent> :=
    [(BUY_TO_OPEN, "buy_to_open"), (BUY_TO_CLOSE, "buy_to_close"), (SELL_TO_OPEN, "sell_to_open"),
     (SELL_TO_CLOSE, "sell_to_close")]

  // ---- Searching ----

  /** The first row from k on with this value. */
  function FindValue<E(==)>(mappings: Mappings<E>, value: E, k: nat): (r: Option<nat>)
    requires k <= |mappings|
    ensures r.None? ==> forall i :: k <= i < |mappings| ==> mappings[i].0 != value
    ensures r.Some? ==> k <= r.value < |mappings| && mappings[r.value].0 == value
                        && forall i :: k <= i < r.value ==> mappings[i].0 != value
    decreases |mappings| - k
  {
    if k == |mappings| then None
    else if mappings[k].0 == value then Some(k)
    else FindValue(mappings, value, k + 1)
  }

  /** The first row from k on with this text. */
  function FindText<E>(mappings: Mappings<E>, text: string, k: nat): (r: Option<nat>)
    requires k <= |mappings|
    ensures r.None? ==> forall i :: k <= i < |mappings| ==> mappings[i].1 != text
    ensures r.Some? ==> k <= r.value < |mappings| && mappings[r.value].1 == text
                        && forall i :: k <= i < r.value ==> mappings[i].1 != text
    decreases |mappings| - k
  {
    if k == |mappings| then None
    else if mappings[k].1 == text then Some(k)
    else FindText(mappings, text, k + 1)
  }

  predicate Covers<E(==)>(mappings: Mappings<E>, value: E) {
    exists i :: 0 <= i < |mappings| && mappings[i].0 == value
  }

  /** Serialization fails for a value that the table lacks. */
  function EnumFrom<E(==)>(mappings: Mappings<E>, value: E): (r: Result<Json, JsonError>)
    ensures r.Ok? <==> Covers(mappings, value)
  {
    match FindValue(mappings, value, 0)
    case Some(i) => Ok(Str(mappings[i].1))
    case None => Err(UnlistedEnum)
  }

  function EnumTo<E>(mappings: Mappings<E>, j: Json): Result<E, JsonError> {
    var text :- ToText(j);
    match FindText(mappings, text, 0)
    case Some(i) => Ok(mappings[i].0)
    case None => Err(InvalidEnum(text))
  }

  function EnumToWithFallback<E>(mappings: Mappings<E>, j: Json, fallback: E): Result<E, JsonError> {
    var text :- ToText(j);
    match FindText(mappings, text, 0)
    case Some(i) => Ok(mappings[i].0)
    case None => if text == "" then Ok(fallback) else Err(InvalidEnum(text))
  }

  // ---- Round trips ----

  predicate Unambiguous<E(==)>(mappings: Mappings<E>) {
    forall i, j :: 0 <= i < j < |mappings| ==> mappings[i].0 != mappings[j].0 && mappings[i].1 != mappings[j].1
  }

  /** A table without repetitions is a one-to-one correspondence of its values and texts. */
  lemma EnumRoundTrip<E>(mappings: Mappings<E>, value: E, j: Json)
    requires Unambiguous(mappings)
    ensures EnumFrom(mappings, value) == Ok(j) <==> EnumTo(mappings, j) == Ok(value)
  {
  }

  /** The fallback applies to the empty text alone. */
  lemma FallbackRoundTrip<E>(mappings: Mappings<E>, value: E, j: Json, fallback: E)
    requires Unambiguous(mappings)
    requires forall i :: 0 <= i < |mappings| ==> mappings[i].1 != ""
    ensures EnumToWithFallback(mappings, j, fallback) == Ok(value) <==>
              EnumFrom(mappings, value) == Ok(j) || (j == Str("") && value == fallback)
  {
  }

  // ---- The tables are complete: every value has a row, so serialization never throws ----

  lemma Listed<E>(mappings: Mappings<E>, k: nat)
    requires k < |mappings|
    ensures Covers(mappings, mappings[k].0)
  {
  }

  lemma AssetClassListed(e: AssetClass)
    ensures Covers(ASSET_CLASSES, e)
  {
    match e
    case US_EQUITY => Listed(ASSET_CLASSES, 0);
    case US_OPTION => Listed(ASSET_CLASSES, 1);
    case CRYPTO => Listed(ASSET_CLASSES, 2);
  }

  lemma OrderClassListed(e: OrderClass)
    ensures Covers(ORDER_CLASSES, e)
  {
    match e
    case SIMPLE => Listed(ORDER_CLASSES, 0);
    case BRACKET => Listed(ORDER_CLASSES, 1);
    case OCO => Listed(ORDER_CLASSES, 2);
    case OTO => Listed(ORDER_CLASSES, 3);
    case MLEG => Listed(ORDER_CLASSES, 4);
  }

  lemma OrderTypeListed(e: OrderType)
    ensures Covers(ORDER_TYPES, e)
  {
    match e
    case MARKET => Listed(ORDER_TYPES, 0);
    case LIMIT => Listed(ORDER_TYPES, 1);
    case STOP => Listed(ORDER_TYPES, 2);
    case STOP_LIMIT => Listed(ORDER_TYPES, 3);
    case TRAILING_STOP => Listed(ORDER_TYPES, 4);
  }

  lemma OrderSideListed(e: OrderSide)
    ensures Covers(ORDER_SIDES, e)
  {
    match e
    case BUY => Listed(ORDER_SIDES, 0);
    case SELL => Listed(ORDER_SIDES, 1);
  }

  lemma TimeInForceListed(e: TimeInForce)
    ensures Covers(TIMES_IN_FORCE, e)
  {
    match e
    case DAY => Listed(TIMES_IN_FORCE, 0);
    case GTC => Listed(TIMES_IN_FORCE, 1);
    case OPG => Listed(TIMES_IN_FORCE, 2);
    case CLS => Listed(TIMES_IN_FORCE, 3);
    case IOC => Listed(TIMES_IN_FORCE, 4);
    case FOK => Listed(TIMES_IN_FORCE, 5);
  }

  lemma OrderStatusListed(e: OrderStatus)
    ensures Covers(ORDER_STATUSES, e)
  {
    hide Covers;
    match e
    case NEW => Listed(ORDER_STATUSES, 0);
    case PARTIALLY_FILLED => Listed(ORDER_STATUSES, 1);
    case FILLED => Listed(ORDER_STATUSES, 2);
    case DONE_FOR_DAY => Listed(ORDER_STATUSES, 3);
    case CANCELED => Listed(ORDER_STATUSES, 4);
    case EXPIRED => Listed(ORDER_STATUSES, 5);
    case REPLACED => Listed(ORDER_STATUSES, 6);
    case PENDING_CANCEL => Listed(ORDER_STATUSES, 7);
    case PENDING_REPLACE => Listed(ORDER_STATUSES, 8);
    case ACCEPTED => Listed(ORDER_STATUSES, 9);
    case PENDING_NEW => Listed(ORDER_STATUSES, 10);
    case ACCEPTED_FOR_BIDDING => Listed(ORDER_STATUSES, 11);
    case STOPPED => Listed(ORDER_STATUSES, 12);
    case REJECTED => Listed(ORDER_STATUSES, 13);
    case SUSPENDED => Listed(ORDER_STATUSES, 14);
    case CALCULATED => Listed(ORDER_STATUSES, 15);
  }

  lemma PositionIntentListed(e: PositionIntent)
    ensures Covers(POSITION_INTENTS, e)
  {
    match e
    case BUY_TO_OPEN => Listed(POSITION_INTENTS, 0);
    case BUY_TO_CLOSE => Listed(POSITION_INTENTS, 1);
    case SELL_TO_OPEN => Listed(POSITION_INTENTS, 2);
    case SELL_TO_CLOSE => Listed(POSITION_INTENTS, 3);
  }

  /** No table repeats a value or a text, and no order class is written as the empty text. */
  lemma TablesUnambiguous()
    ensures Unambiguous(ASSET_CLASSES) && Unambiguous(ORDER_TYPES) && Unambiguous(ORDER_SIDES)
    ensures Unambiguous(TIMES_IN_FORCE) && Unambiguous(POSITION_INTENTS) && Unambiguous(ORDER_CLASSES)
    ensures forall i :: 0 <= i < |ORDER_CLASSES| ==> ORDER_CLASSES[i].1 != ""
  {
  }

  lemma StatusesUnambiguous()
    ensures Unambiguous(ORDER_STATUSES)
  {
    hide Unambiguous, Separate;
    EarlyStatuses();
    LateStatuses();
    StatusesSeparate();
    UnambiguousConcat(ORDER_STATUSES[..8], ORDER_STATUSES[8..]);
    assert ORDER_STATUSES[..8] + ORDER_STATUSES[8..] == ORDER_STATUSES;
  }

  predicate Separate<E(==)>(a: Mappings<E>, b: Mappings<E>) {
    forall i, j :: 0 <= i < |a| && 0 <= j < |b| ==> a[i].0 != b[j].0 && a[i].1 != b[j].1
  }

  lemma UnambiguousConcat<E>(a: Mappings<E>, b: Mappings<E>)
    requires Unambiguous(a) && Unambiguous(b) && Separate(a, b)
    ensures Unambiguous(a + b)
  {
  }

  lemma EarlyStatuses()
    ensures Unambiguous(ORDER_STATUSES[..8])
  {
  }

  lemma LateStatuses()
    ensures Unambiguous(ORDER_STATUSES[8..])
  {
  }

  lemma StatusesSeparate()
    ensures Separate(ORDER_STATUSES[..8], ORDER_STATUSES[8..])
  {
  }

  // ---- The converters of each enumeration ----

  function PrintAssetClass(e: AssetClass): Json {
    AssetClassListed(e);
    EnumFrom(ASSET_CLASSES, e).value
  }

  function ParseAssetClass(j: Json): Result<AssetClass, JsonError> {
    EnumTo(ASSET_CLASSES, j)
  }

  lemma AssetClassRoundTrip(e: AssetClass, j: Json)
    ensures ParseAssetClass(PrintAssetClass(e)) == Ok(e)
    ensures ParseAssetClass(j).Ok? ==> PrintAssetClass(ParseAssetClass(j).value) == j
  {
    TablesUnambiguous();
    hide EnumFrom, EnumTo, Unambiguous;
    AssetClassListed(e);
    EnumRoundTrip(ASSET_CLASSES, e, PrintAssetClass(e));
    if ParseAssetClass(j).Ok? {
      EnumRoundTrip(ASSET_CLASSES, ParseAssetClass(j).value, j);
    }
  }

  function PrintOrderType(e: OrderType): Json {
    OrderTypeListed(e);
    EnumFrom(ORDER_TYPES, e).value
  }

  function ParseOrderType(j: Json): Result<OrderType, JsonError> {
    EnumTo(ORDER_TYPES, j)
  }

  lemma OrderTypeRoundTrip(e: OrderType, j: Json)
    ensures ParseOrderType(PrintOrderType(e)) == Ok(e)
    ensures ParseOrderType(j).Ok? ==> PrintOrderType(ParseOrderType(j).value) == j
  {
    TablesUnambiguous();
    hide EnumFrom, EnumTo, Unambiguous;
    OrderTypeListed(e);
    EnumRoundTrip(ORDER_TYPES, e, PrintOrderType(e));
    if ParseOrderType(j).Ok? {
      EnumRoundTrip(ORDER_TYPES, ParseOrderType(j).value, j);
    }
  }

  function PrintOrderSide(e: OrderSide): Json {
    OrderSideListed(e);
    EnumFrom(ORDER_SIDES, e).value
  }

  function ParseOrderSide(j: Json): Result<OrderSide, JsonError> {
    EnumTo(ORDER_SIDES, j)
  }

  lemma OrderSideRoundTrip(e: OrderSide, j: Json)
    ensures ParseOrderSide(PrintOrderSide(e)) == Ok(e)
    ensures ParseOrderSide(j).Ok? ==> PrintOrderSide(ParseOrderSide(j).value) == j
  {
    TablesUnambiguous();
    hide EnumFrom, EnumTo, Unambiguous;
    OrderSideListed(e);
    EnumRoundTrip(ORDER_SIDES, e, PrintOrderSide(e));
    if ParseOrderSide(j).Ok? {
      EnumRoundTrip(ORDER_SIDES, ParseOrderSide(j).value, j);
    }
  }

  function PrintTimeInForce(e: TimeInForce): Json {
    TimeInForceListed(e);
    EnumFrom(TIMES_IN_FORCE, e).value
  }

  function ParseTimeInForce(j: Json): Result<TimeInForce, JsonError> {
    EnumTo(TIMES_IN_FORCE, j)
  }

  lemma TimeInForceRoundTrip(e: TimeInForce, j: Json)
    ensures ParseTimeInForce(PrintTimeInForce(e)) == Ok(e)
    ensures ParseTimeInForce(j).Ok? ==> PrintTimeInForce(ParseTimeInForce(j).value) == j
  {
    TablesUnambiguous();
    hide EnumFrom, EnumTo, Unambiguous;
    TimeInForceListed(e);
    EnumRoundTrip(TIMES_IN_FORCE, e, PrintTimeInForce(e));
    if ParseTimeInForce(j).Ok? {
      EnumRoundTrip(TIMES_IN_FORCE, ParseTimeInForce(j).value, j);
    }
  }

  function PrintOrderStatus(e: OrderStatus): Json {
    OrderStatusListed(e);
    EnumFrom(ORDER_STATUSES, e).value
  }

  function ParseOrderStatus(j: Json): Result<OrderStatus, JsonError> {
    EnumTo(ORDER_STATUSES, j)
  }

  lemma OrderStatusRoundTrip(e: OrderStatus, j: Json)
    ensures ParseOrderStatus(PrintOrderStatus(e)) == Ok(e)
    ensures ParseOrderStatus(j).Ok? ==> PrintOrderStatus(ParseOrderStatus(j).value) == j
  {
    StatusesUnambiguous();
    hide EnumFrom, EnumTo, Unambiguous;
    OrderStatusListed(e);
    EnumRoundTrip(ORDER_STATUSES, e, PrintOrderStatus(e));
    if ParseOrderStatus(j).Ok? {
      EnumRoundTrip(ORDER_STATUSES, ParseOrderStatus(j).value, j);
    }
  }

  function PrintPositionIntent(e: PositionIntent): Json {
    PositionIntentListed(e);
    EnumFrom(POSITION_INTENTS, e).value
  }

  function ParsePositionIntent(j: Json): Result<PositionIntent, JsonError> {
    EnumTo(POSITION_INTENTS, j)
  }

  lemma PositionIntentRoundTrip(e: PositionIntent, j: Json)
    ensures ParsePositionIntent(PrintPositionIntent(e)) == Ok(e)
    ensures ParsePositionIntent(j).Ok? ==> PrintPositionIntent(ParsePositionIntent(j).value) == j
  {
    TablesUnambiguous();
    hide EnumFrom, EnumTo, Unambiguous;
    PositionIntentListed(e);
    EnumRoundTrip(POSITION_INTENTS, e, PrintPositionIntent(e));
    if ParsePositionIntent(j).Ok? {
      EnumRoundTrip(POSITION_INTENTS, ParsePositionIntent(j).value, j);
    }
  }

  function PrintOrderClass(e: OrderClass): Json {
    OrderClassListed(e);
    EnumFrom(ORDER_CLASSES, e).value
  }

  /** An order class may be written as the empty text. */
  function ParseOrderClass(j: Json): Result<OrderClass, JsonError> {
    EnumToWithFallback(ORDER_CLASSES, j, SIMPLE)
  }

  lemma OrderClassRoundTrip(e: OrderClass, j: Json)
    ensures ParseOrderClass(PrintOrderClass(e)) == Ok(e)
    ensures ParseOrderClass(j).Ok? ==>
              PrintOrderClass(ParseOrderClass(j).value) == if j == Str("") then Str("simple") else j
    ensures ParseOrderClass(j).Ok? <==> j == Str("") || EnumTo(ORDER_CLASSES, j).Ok?
  {
    TablesUnambiguous();
    hide EnumFrom, EnumTo, EnumToWithFallback, Unambiguous;
    OrderClassListed(e);
    FallbackRoundTrip(ORDER_CLASSES, e, PrintOrderClass(e), SIMPLE);
    FallbackRoundTrip(ORDER_CLASSES, SIMPLE, j, SIMPLE);
    SimpleText();
    if ParseOrderClass(j).Ok? {
      var v := ParseOrderClass(j).value;
      FallbackRoundTrip(ORDER_CLASSES, v, j, SIMPLE);
      EnumRoundTrip(ORDER_CLASSES, v, j);
    }
    if EnumTo(ORDER_CLASSES, j).Ok? {
      var v := EnumTo(ORDER_CLASSES, j).value;
      FallbackRoundTrip(ORDER_CLASSES, v, j, SIMPLE);
      EnumRoundTrip(ORDER_CLASSES, v, j);
    }
  }

  lemma SimpleText()
    ensures PrintOrderClass(SIMPLE) == Str("simple")
    ensures EnumFrom(ORDER_CLASSES, SIMPLE) != Ok(Str(""))
    ensures EnumTo(ORDER_CLASSES, Str("")).Err?
  {
  }

  // ---- The texts, value by value ----

  /** A row is printed as its text and parsed from that text alone. */
  lemma RowExactly<E>(mappings: Mappings<E>, k: nat, j: Json)
    requires Unambiguous(mappings) && k < |mappings|
    ensures EnumFrom(mappings, mappings[k].0) == Ok(Str(mappings[k].1))
    ensures EnumTo(mappings, j) == Ok(mappings[k].0) <==> j == Str(mappings[k].1)
  {
    EnumRoundTrip(mappings, mappings[k].0, j);
    Listed(mappings, k);
  }

  lemma AssetClassTexts(e: AssetClass, j: Json)
    ensures var text :=
              match e
              case US_EQUITY => "us_equity"
              case US_OPTION => "us_option"
              case CRYPTO => "crypto";
            PrintAssetClass(e) == Str(text) && (ParseAssetClass(j) == Ok(e) <==> j == Str(text))
  {
    TablesUnambiguous();
    hide EnumFrom, EnumTo, Unambiguous;
    match e
    case US_EQUITY => RowExactly(ASSET_CLASSES, 0, j);
    case US_OPTION => RowExactly(ASSET_CLASSES, 1, j);
    case CRYPTO => RowExactly(ASSET_CLASSES, 2, j);
  }

  lemma OrderTypeTexts(e: OrderType, j: Json)
    ensures var text :=
              match e
              case MARKET => "market"
              case LIMIT => "limit"
              case STOP => "stop"
              case STOP_LIMIT => "stop_limit"
              case TRAILING_STOP => "trailing_stop";
            PrintOrderType(e) == Str(text) && (ParseOrderType(j) == Ok(e) <==> j == Str(text))
  {
    TablesUnambiguous();
    hide EnumFrom, EnumTo, Unambiguous;
    match e
    case MARKET => RowExactly(ORDER_TYPES, 0, j);
    case LIMIT => RowExactly(ORDER_TYPES, 1, j);
    case STOP => RowExactly(ORDER_TYPES, 2, j);
    case STOP_LIMIT => RowExactly(ORDER_TYPES, 3, j);
    case TRAILING_STOP => RowExactly(ORDER_TYPES, 4, j);
  }

  lemma OrderSideTexts(e: OrderSide, j: Json)
    ensures var text :=
              match e
              case BUY => "buy"
              case SELL => "sell";
            PrintOrderSide(e) == Str(text) && (ParseOrderSide(j) == Ok(e) <==> j == Str(text))
  {
    TablesUnambiguous();
    hide EnumFrom, EnumTo, Unambiguous;
    match e
    case BUY => RowExactly(ORDER_SIDES, 0, j);
    case SELL => RowExactly(ORDER_SIDES, 1, j);
  }

  lemma TimeInForceTexts(e: TimeInForce, j: Json)
    ensures var text :=
              match e
              case DAY => "day"
              case GTC => "gtc"
              case OPG => "opg"
              case CLS => "cls"
              case IOC => "ioc"
              case FOK => "fok";
            PrintTimeInForce(e) == Str(text) && (ParseTimeInForce(j) == Ok(e) <==> j == Str(text))
  {
    TablesUnambiguous();
    hide EnumFrom, EnumTo, Unambiguous;
    match e
    case DAY => RowExactly(TIMES_IN_FORCE, 0, j);
    case GTC => RowExactly(TIMES_IN_FORCE, 1, j);
    case OPG => RowExactly(TIMES_IN_FORCE, 2, j);
    case CLS => RowExactly(TIMES_IN_FORCE, 3, j);
    case IOC => RowExactly(TIMES_IN_FORCE, 4, j);
    case FOK => RowExactly(TIMES_IN_FORCE, 5, j);
  }

  lemma OrderStatusRow(k: nat, e: OrderStatus, text: string, j: Json)
    requires k < |ORDER_STATUSES| && ORDER_STATUSES[k] == (e, text)
    ensures PrintOrderStatus(e) == Str(text)
    ensures ParseOrderStatus(j) == Ok(e) <==> j == Str(text)
  {
    hide EnumFrom, EnumTo, Unambiguous;
    StatusesUnambiguous();
    RowExactly(ORDER_STATUSES, k, j);
  }

  lemma OrderStatusTexts(e: OrderStatus, j: Json)
    ensures var text :=
              match e
              case NEW => "new"
              case PARTIALLY_FILLED => "partially_filled"
              case FILLED => "filled"
              case DONE_FOR_DAY => "done_for_day"
              case CANCELED => "canceled"
              case EXPIRED => "expired"
              case REPLACED => "replaced"
              case PENDING_CANCEL => "pending_cancel"
              case PENDING_REPLACE => "pending_replace"
              case ACCEPTED => "accepted"
              case PENDING_NEW => "pending_new"
              case ACCEPTED_FOR_BIDDING => "accepted_for_bidding"
              case STOPPED => "stopped"
              case REJECTED => "rejected"
              case SUSPENDED => "suspended"
              case CALCULATED => "calculated";
            PrintOrderStatus(e) == Str(text) && (ParseOrderStatus(j) == Ok(e) <==> j == Str(text))
  {
    hide PrintOrderStatus, ParseOrderStatus;
    match e
    case NEW => OrderStatusRow(0, e, "new", j);
    case PARTIALLY_FILLED => OrderStatusRow(1, e, "partially_filled", j);
    case FILLED => OrderStatusRow(2, e, "filled", j);
    case DONE_FOR_DAY => OrderStatusRow(3, e, "done_for_day", j);
    case CANCELED => OrderStatusRow(4, e, "canceled", j);
    case EXPIRED => OrderStatusRow(5, e, "expired", j);
    case REPLACED => OrderStatusRow(6, e, "replaced", j);
    case PENDING_CANCEL => OrderStatusRow(7, e, "pending_cancel", j);
    case PENDING_REPLACE => OrderStatusRow(8, e, "pending_replace", j);
    case ACCEPTED => OrderStatusRow(9, e, "accepted", j);
    case PENDING_NEW => OrderStatusRow(10, e, "pending_new", j);
    case ACCEPTED_FOR_BIDDING => OrderStatusRow(11, e, "accepted_for_bidding", j);
    case STOPPED => OrderStatusRow(12, e, "stopped", j);
    case REJECTED => OrderStatusRow(13, e, "rejected", j);
    case SUSPENDED => OrderStatusRow(14, e, "suspended", j);
    case CALCULATED => OrderStatusRow(15, e, "calculated", j);
  }

  lemma PositionIntentTexts(e: PositionIntent, j: Json)
    ensures var text :=
              match e
              case BUY_TO_OPEN => "buy_to_open"
              case BUY_TO_CLOSE => "buy_to_close"
              case SELL_TO_OPEN => "sell_to_open"
              case SELL_TO_CLOSE => "sell_to_close";
            PrintPositionIntent(e) == Str(text) && (ParsePositionIntent(j) == Ok(e) <==> j == Str(text))
  {
    TablesUnambiguous();
    hide EnumFrom, EnumTo, Unambiguous;
    match e
    case BUY_TO_OPEN => RowExactly(POSITION_INTENTS, 0, j);
    case BUY_TO_CLOSE => RowExactly(POSITION_INTENTS, 1, j);
    case SELL_TO_OPEN => RowExactly(POSITION_INTENTS, 2, j);
    case SELL_TO_CLOSE => RowExactly(POSITION_INTENTS, 3, j);
  }

  lemma OrderClassTexts(e: OrderClass, j: Json)
    ensures var text :=
              match e
              case SIMPLE => "simple"
              case BRACKET => "bracket"
              case OCO => "oco"
              case OTO => "oto"
              case MLEG => "mleg";
            && PrintOrderClass(e) == Str(text)
            && (ParseOrderClass(j) == Ok(e) <==> j == Str(text) || (j == Str("") && e == SIMPLE))
  {
    TablesUnambiguous();
    hide EnumFrom, EnumTo, EnumToWithFallback, Unambiguous;
    FallbackRoundTrip(ORDER_CLASSES, e, j, SIMPLE);
    match e
    case SIMPLE => RowExactly(ORDER_CLASSES, 0, j);
    case BRACKET => RowExactly(ORDER_CLASSES, 1, j);
    case OCO => RowExactly(ORDER_CLASSES, 2, j);
    case OTO => RowExactly(ORDER_CLASSES, 3, j);
    case MLEG => RowExactly(ORDER_CLASSES, 4, j);
  }
}
