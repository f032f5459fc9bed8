/** What the order codec accepts, and the form that parsing and printing bring JSON to. */
module OrderCodecNormalForm {
  import opened Wrappers
  import opened Json
  import opened EnumSerialization
  import opened OrderCodec
  import opened OrderCodecLaws

  // ---- Acceptance ----

  predicate Fits(kind: Kind, j: Json)
    decreases j, 0
  {
    match kind
    case TextKind => j.Str?
    case FlagKind => j.Bool?
    case AssetClassKind => ParseAssetClass(j).Ok?
    case OrderClassKind => ParseOrderClass(j).Ok?
    case OrderTypeKind => ParseOrderType(j).Ok?
    case SideKind => ParseOrderSide(j).Ok?
    case TimeInForceKind => ParseTimeInForce(j).Ok?
    case StatusKind => ParseOrderStatus(j).Ok?
    case IntentKind => ParsePositionIntent(j).Ok?
    case LegsKind => j.Arr? && forall i :: 0 <= i < |j.items| ==> Conforms(j.items[i])
  }

  predicate RequiredFits(m: Member, j: Json)
    requires j.Obj?
    decreases j, 1
  {
    m.key in j.fields && Fits(m.kind, j.fields[m.key])
  }

  predicate OptionalFits(m: Member, j: Json)
    requires j.Obj?
    decreases j, 1
  {
    m.key in j.fields && j.fields[m.key] != Null ==> Fits(m.kind, j.fields[m.key])
  }

  /** Every required member is there and fits; every other one fits unless absent or null. */
  predicate Conforms(j: Json)
    decreases j, 2
  {
    && j.Obj?
    && (forall i :: 0 <= i < |REQUIRED| ==> RequiredFits(REQUIRED[i], j))
    && (forall i :: 0 <= i < |OPTIONAL| ==> OptionalFits(OPTIONAL[i], j))
  }

  // ---- The normal form ----

  /** An empty order class is "simple"; legs are normalised one by one; all else stays. */
  function NormalMember(kind: Kind, j: Json): Json
    decreases j, 0
  {
    if kind == OrderClassKind && j == Str("") then Str("simple")
    else if kind == LegsKind && j.Arr? then Arr(NormalOrders(j.items))
    else j
  }

  function NormalOrders(items: seq<Json>): (r: seq<Json>)
    ensures |r| == |items| && forall i :: 0 <= i < |r| ==> r[i] == NormalOrder(items[i])
    decreases items
  {
    seq(|items|, i requires 0 <= i < |items| => NormalOrder(items[i]))
  }

  function NormalEntry(m: Member, j: Json): Entry
    requires j.Obj?
    decreases j, 1
  {
    (m.key, if m.key in j.fields && j.fields[m.key] != Null then Some(NormalMember(m.kind, j.fields[m.key])) else None)
  }

  function NormalEntries(members: seq<Member>, j: Json): (r: seq<Entry>)
    requires j.Obj?
    ensures |r| == |members| && forall i :: 0 <= i < |r| ==> r[i] == NormalEntry(members[i], j)
    decreases j, 2
  {
    seq(|members|, i requires 0 <= i < |members| => NormalEntry(members[i], j))
  }

  /** The members of the schema that are there and not null, and nothing else. */
  function NormalOrder(j: Json): Json
    decreases j, 3
  {
    if j.Obj? then Obj(Assemble(NormalEntries(SCHEMA, j))) else j
  }

  // ---- Parsing accepts what conforms; printing writes the normal form ----

  lemma TextMember(j: Json, key: string)
    requires j.Obj?
    ensures TextAt(j.fields, key).Ok? <==> RequiredFits(Member(key, TextKind), j)
    ensures TextAt(j.fields, key).Ok? ==>
              (key, Text(TextAt(j.fields, key).value)) == NormalEntry(Member(key, TextKind), j)
  {
  }

  lemma OptionalMember(j: Json, key: string)
    requires j.Obj?
    ensures OptionalText(j.fields, key).Ok? <==> OptionalFits(Member(key, TextKind), j)
    ensures OptionalText(j.fields, key).Ok? ==>
              (key, Optional(OptionalText(j.fields, key).value)) == NormalEntry(Member(key, TextKind), j)
  {
  }

  /** A required member of an enumeration is parsed exactly when it fits, and then printed in
      normal form. */
  ghost predicate Normalises<E>(j: Json, m: Member, parse: Json -> Result<E, JsonError>, render: E -> Json)
    requires j.Obj?
  {
    var r := EnumAt(j.fields, m.key, parse);
    && (r.Ok? <==> RequiredFits(m, j))
    && (r.Ok? ==> (m.key, Some(render(r.value))) == NormalEntry(m, j))
  }

  lemma EnumMember<E>(j: Json, m: Member, parse: Json -> Result<E, JsonError>, render: E -> Json)
    requires j.Obj?
    requires var v := ValueAt(j, m.key);
             && (Fits(m.kind, v) <==> parse(v).Ok?) && (v == Null ==> parse(v).Err?)
             && (parse(v).Ok? ==> render(parse(v).value) == NormalMember(m.kind, v))
    ensures Normalises(j, m, parse, render)
  {
  }

  lemma NullsRejected()
    ensures ParseAssetClass(Null).Err? && ParseOrderClass(Null).Err? && ParseOrderType(Null).Err?
    ensures ParseOrderSide(Null).Err? && ParseTimeInForce(Null).Err? && ParseOrderStatus(Null).Err?
  {
  }

  function ValueAt(j: Json, key: string): Json
    requires j.Obj?
  {
    if key in j.fields then j.fields[key] else Null
  }

  lemma OrderEnumMembers(j: Json)
    requires j.Obj?
    ensures Normalises(j, Member("order_class", OrderClassKind), ParseOrderClass, PrintOrderClass)
    ensures Normalises(j, Member("order_type", OrderTypeKind), ParseOrderType, PrintOrderType)
    ensures Normalises(j, Member("status", StatusKind), ParseOrderStatus, PrintOrderStatus)
  {
    hide Normalises, ValueAt;
    hide ParseOrderClass, ParseOrderType, ParseOrderStatus, PrintOrderClass, PrintOrderType, PrintOrderStatus;
    NullsRejected();
    OrderClassRoundTrip(SIMPLE, ValueAt(j, "order_class"));
    EnumMember(j, Member("order_class", OrderClassKind), ParseOrderClass, PrintOrderClass);
    OrderTypeRoundTrip(MARKET, ValueAt(j, "order_type"));
    EnumMember(j, Member("order_type", OrderTypeKind), ParseOrderType, PrintOrderType);
    OrderStatusRoundTrip(NEW, ValueAt(j, "status"));
    EnumMember(j, Member("status", StatusKind), ParseOrderStatus, PrintOrderStatus);
  }

  lemma OtherEnumMembers(j: Json)
    requires j.Obj?
    ensures Normalises(j, Member("asset_class", AssetClassKind), ParseAssetClass, PrintAssetClass)
    ensures Normalises(j, Member("side", SideKind), ParseOrderSide, PrintOrderSide)
    ensures Normalises(j, Member("time_in_force", TimeInForceKind), ParseTimeInForce, PrintTimeInForce)
  {
    hide Normalises, ValueAt;
    hide ParseAssetClass, ParseOrderSide, ParseTimeInForce, PrintAssetClass, PrintOrderSide, PrintTimeInForce;
    NullsRejected();
    AssetClassRoundTrip(CRYPTO, ValueAt(j, "asset_class"));
    EnumMember(j, Member("asset_class", AssetClassKind), ParseAssetClass, PrintAssetClass);
    OrderSideRoundTrip(BUY, ValueAt(j, "side"));
    EnumMember(j, Member("side", SideKind), ParseOrderSide, PrintOrderSide);
    TimeInForceRoundTrip(DAY, ValueAt(j, "time_in_force"));
    EnumMember(j, Member("time_in_force", TimeInForceKind), ParseTimeInForce, PrintTimeInForce);
  }

  /** The required members, all at once. */
  lemma RequiredNormal(j: Json)
    requires j.Obj?
    ensures ParseRequired(j.fields).Ok? <==> forall i :: 0 <= i < |REQUIRED| ==> RequiredFits(REQUIRED[i], j)
    ensures ParseRequired(j.fields).Ok? ==>
              RequiredEntries(ParseRequired(j.fields).value) == NormalEntries(REQUIRED, j)
  {
    hide RequiredFits, NormalEntry, TextAt, EnumAt, Text;
    hide PrintAssetClass, PrintOrderClass, PrintOrderType, PrintOrderSide, PrintTimeInForce, PrintOrderStatus;
    TextMember(j, "id");
    TextMember(j, "client_order_id");
    TextMember(j, "created_at");
    TextMember(j, "asset_id");
    TextMember(j, "symbol");
    TextMember(j, "filled_qty");
    OrderEnumMembers(j);
    OtherEnumMembers(j);
    FlagMember(j);
    RequiredTable();
    if ParseRequired(j.fields).Ok? {
      assert forall i :: 0 <= i < |REQUIRED| ==> RequiredFits(REQUIRED[i], j);
      var e, n := RequiredEntries(ParseRequired(j.fields).value), NormalEntries(REQUIRED, j);
      assert e[0] == n[0];
      assert e[1] == n[1];
      assert e[2] == n[2];
      assert e[3] == n[3];
      assert e[4] == n[4];
      assert e[5] == n[5];
      assert e[6] == n[6];
      assert e[7] == n[7];
      assert e[8] == n[8];
      assert e[9] == n[9];
      assert e[10] == n[10];
      assert e[11] == n[11];
      assert e[12] == n[12];
      assert e == n;
    }
  }

  lemma FlagMember(j: Json)
    requires j.Obj?
    ensures BoolAt(j.fields, "extended_hours").Ok? <==> RequiredFits(Member("extended_hours", FlagKind), j)
    ensures BoolAt(j.fields, "extended_hours").Ok? ==>
              ("extended_hours", Some(Bool(BoolAt(j.fields, "extended_hours").value)))
              == NormalEntry(Member("extended_hours", FlagKind), j)
  {
  }

  lemma RequiredTable()
    ensures |REQUIRED| == 13
    ensures REQUIRED[0] == Member("id", TextKind)
    ensures REQUIRED[1] == Member("client_order_id", TextKind)
    ensures REQUIRED[2] == Member("created_at", TextKind)
    ensures REQUIRED[3] == Member("asset_id", TextKind)
    ensures REQUIRED[4] == Member("symbol", TextKind)
    ensures REQUIRED[5] == Member("asset_class", AssetClassKind)
    ensures REQUIRED[6] == Member("filled_qty", TextKind)
    ensures REQUIRED[7] == Member("order_class", OrderClassKind)
    ensures REQUIRED[8] == Member("order_type", OrderTypeKind)
    ensures REQUIRED[9] == Member("side", SideKind)
    ensures REQUIRED[10] == Member("time_in_force", TimeInForceKind)
    ensures REQUIRED[11] == Member("status", StatusKind)
    ensures REQUIRED[12] == Member("extended_hours", FlagKind)
  {
  }

  lemma TimesTable()
    ensures |TIMES| == 9
    ensures TIMES[0] == Member("updated_at", TextKind)
    ensures TIMES[1] == Member("submitted_at", TextKind)
    ensures TIMES[2] == Member("filled_at", TextKind)
    ensures TIMES[3] == Member("expired_at", TextKind)
    ensures TIMES[4] == Member("canceled_at", TextKind)
    ensures TIMES[5] == Member("failed_at", TextKind)
    ensures TIMES[6] == Member("replaced_at", TextKind)
    ensures TIMES[7] == Member("replaced_by", TextKind)
    ensures TIMES[8] == Member("replaces", TextKind)
  {
  }

  lemma TimesNormal(j: Json, o: Order)
    requires j.Obj?
    ensures ParseTimes(j.fields, o).Ok? <==> forall i :: 0 <= i < |TIMES| ==> OptionalFits(TIMES[i], j)
    ensures ParseTimes(j.fields, o).Ok? ==>
              TimeEntries(ParseTimes(j.fields, o).value) == NormalEntries(TIMES, j)
  {
    hide OptionalFits, NormalEntry, OptionalText, Optional;
    OptionalMember(j, "updated_at");
    OptionalMember(j, "submitted_at");
    OptionalMember(j, "filled_at");
    OptionalMember(j, "expired_at");
    OptionalMember(j, "canceled_at");
    OptionalMember(j, "failed_at");
    OptionalMember(j, "replaced_at");
    OptionalMember(j, "replaced_by");
    OptionalMember(j, "replaces");
    TimesTable();
    if ParseTimes(j.fields, o).Ok? {
      assert forall i :: 0 <= i < |TIMES| ==> OptionalFits(TIMES[i], j);
      var e, n := TimeEntries(ParseTimes(j.fields, o).value), NormalEntries(TIMES, j);
      assert e[0] == n[0];
      assert e[1] == n[1];
      assert e[2] == n[2];
      assert e[3] == n[3];
      assert e[4] == n[4];
      assert e[5] == n[5];
      assert e[6] == n[6];
      assert e[7] == n[7];
      assert e[8] == n[8];
      assert e == n;
    }
  }

  lemma PricesTable()
    ensures |PRICES| == 8
    ensures PRICES[0] == Member("notional", TextKind)
    ensures PRICES[1] == Member("qty", TextKind)
    ensures PRICES[2] == Member("filled_avg_price", TextKind)
    ensures PRICES[3] == Member("limit_price", TextKind)
    ensures PRICES[4] == Member("stop_price", TextKind)
    ensures PRICES[5] == Member("trail_percent", TextKind)
    ensures PRICES[6] == Member("trail_price", TextKind)
    ensures PRICES[7] == Member("hwm", TextKind)
  {
  }

  lemma PricesNormal(j: Json, o: Order)
    requires j.Obj?
    ensures ParsePrices(j.fields, o).Ok? <==> forall i :: 0 <= i < |PRICES| ==> OptionalFits(PRICES[i], j)
    ensures ParsePrices(j.fields, o).Ok? ==>
              PriceEntries(ParsePrices(j.fields, o).value) == NormalEntries(PRICES, j)
  {
    hide OptionalFits, NormalEntry, OptionalText, Optional;
    OptionalMember(j, "notional");
    OptionalMember(j, "qty");
    OptionalMember(j, "filled_avg_price");
    OptionalMember(j, "limit_price");
    OptionalMember(j, "stop_price");
    OptionalMember(j, "trail_percent");
    OptionalMember(j, "trail_price");
    OptionalMember(j, "hwm");
    PricesTable();
    if ParsePrices(j.fields, o).Ok? {
      assert forall i :: 0 <= i < |PRICES| ==> OptionalFits(PRICES[i], j);
      var e, n := PriceEntries(ParsePrices(j.fields, o).value), NormalEntries(PRICES, j);
      assert e[0] == n[0];
      assert e[1] == n[1];
      assert e[2] == n[2];
      assert e[3] == n[3];
      assert e[4] == n[4];
      assert e[5] == n[5];
      assert e[6] == n[6];
      assert e[7] == n[7];
      assert e == n;
    }
  }

  const INTENT := Member("position_intent", IntentKind)
  const LEGS := Member("legs", LegsKind)

  lemma IntentMember(j: Json)
    requires j.Obj?
    ensures OptionalIntent(j.fields).Ok? <==> OptionalFits(INTENT, j)
    ensures OptionalIntent(j.fields).Ok? ==>
              ("position_intent", IntentEntry(OptionalIntent(j.fields).value)) == NormalEntry(INTENT, j)
  {
    hide ParsePositionIntent, PrintPositionIntent;
    match Present(j.fields, "position_intent")
    case None =>
    case Some(v) => PositionIntentRoundTrip(BUY_TO_OPEN, v);
  }

  /** Later members leave the entries of the earlier ones alone. */
  lemma EntriesKept(o: Order, j: Json)
    requires j.Obj? && ParseTimes(j.fields, o).Ok? && ParsePrices(j.fields, ParseTimes(j.fields, o).value).Ok?
    ensures var t := ParseTimes(j.fields, o).value;
            var p := ParsePrices(j.fields, t).value;
            RequiredEntries(p) == RequiredEntries(o) && TimeEntries(p) == TimeEntries(t)
            && p.legs == o.legs
  {
    hide PrintAssetClass, PrintOrderClass, PrintOrderType, PrintOrderSide, PrintTimeInForce;
    hide PrintOrderStatus, OptionalText;
  }

  lemma TailKept(o: Order, i: Option<PositionIntent>)
    ensures var p := o.(positionIntent := i);
            && RequiredEntries(p) == RequiredEntries(o)
            && TimeEntries(p) == TimeEntries(o)
            && PriceEntries(p) == PriceEntries(o)
  {
  }

  lemma LegsKept(o: Order, legs: Legs)
    ensures var p := o.(legs := legs);
            && RequiredEntries(p) == RequiredEntries(o)
            && TimeEntries(p) == TimeEntries(o)
            && PriceEntries(p) == PriceEntries(o)
  {
  }

  lemma NormalSplits(j: Json)
    requires j.Obj?
    ensures NormalEntries(SCHEMA, j)
            == NormalEntries(REQUIRED, j) + NormalEntries(TIMES, j) + NormalEntries(PRICES, j)
               + [NormalEntry(INTENT, j), NormalEntry(LEGS, j)]
  {
  }

  lemma OptionalSplits(j: Json)
    requires j.Obj?
    ensures (forall i :: 0 <= i < |OPTIONAL| ==> OptionalFits(OPTIONAL[i], j)) <==>
            && (forall i :: 0 <= i < |TIMES| ==> OptionalFits(TIMES[i], j))
            && (forall i :: 0 <= i < |PRICES| ==> OptionalFits(PRICES[i], j))
            && OptionalFits(INTENT, j) && OptionalFits(LEGS, j)
  {
    hide OptionalFits;
    FitSplits(TIMES + PRICES, TAIL, j);
    FitSplits(TIMES, PRICES, j);
    assert TAIL[0] == INTENT && TAIL[1] == LEGS;
  }

  lemma FitSplits(a: seq<Member>, b: seq<Member>, j: Json)
    requires j.Obj?
    ensures (forall i :: 0 <= i < |a + b| ==> OptionalFits((a + b)[i], j)) <==>
            (forall i :: 0 <= i < |a| ==> OptionalFits(a[i], j)) && (forall i :: 0 <= i < |b| ==> OptionalFits(b[i], j))
  {
    hide OptionalFits;
    var c := a + b;
    if forall i :: 0 <= i < |c| ==> OptionalFits(c[i], j) {
      forall i | 0 <= i < |a|
        ensures OptionalFits(a[i], j)
      {
        assert c[i] == a[i];
      }
      forall i | 0 <= i < |b|
        ensures OptionalFits(b[i], j)
      {
        assert c[|a| + i] == b[i];
      }
    }
  }

  /** The members but the legs: accepted when they fit, written in normal form. */
  lemma MembersNormal(j: Json)
    requires j.Obj?
    ensures var r := ParseMembers(j.fields);
            && (r.Ok? <==> (forall i :: 0 <= i < |REQUIRED| ==> RequiredFits(REQUIRED[i], j))
                           && (forall i :: 0 <= i < |TIMES| ==> OptionalFits(TIMES[i], j))
                           && (forall i :: 0 <= i < |PRICES| ==> OptionalFits(PRICES[i], j))
                           && OptionalFits(INTENT, j))
            && (r.Ok? ==>
                  && RequiredEntries(r.value) == NormalEntries(REQUIRED, j)
                  && TimeEntries(r.value) == NormalEntries(TIMES, j)
                  && PriceEntries(r.value) == NormalEntries(PRICES, j)
                  && ("position_intent", IntentEntry(r.value.positionIntent)) == NormalEntry(INTENT, j)
                  && r.value.legs == NoLegs)
  {
    hide RequiredFits, OptionalFits, NormalEntry, RequiredEntries, TimeEntries, PriceEntries, IntentEntry;
    RequiredNormal(j);
    RequiredHasNoLegs(j.fields);
    hide ParseRequired, ParseTimes, ParsePrices, OptionalIntent;
    if ParseRequired(j.fields).Ok? {
      var required := ParseRequired(j.fields).value;
      TimesNormal(j, required);
      if ParseTimes(j.fields, required).Ok? {
        var timed := ParseTimes(j.fields, required).value;
        PricesNormal(j, timed);
        IntentMember(j);
        if ParsePrices(j.fields, timed).Ok? {
          var priced := ParsePrices(j.fields, timed).value;
          EntriesKept(required, j);
          if OptionalIntent(j.fields).Ok? {
            TailKept(priced, OptionalIntent(j.fields).value);
          }
        }
      }
    }
  }

  lemma RequiredHasNoLegs(obj: Fields)
    ensures ParseRequired(obj).Ok? ==> ParseRequired(obj).value.legs == NoLegs
  {
    hide TextAt, EnumAt, BoolAt;
  }

  /** Members in normal form and legs in normal form make an order in normal form. */
  lemma MembersThenLegs(j: Json, o: Order, legs: Legs)
    requires j.Obj?
    requires RequiredEntries(o) == NormalEntries(REQUIRED, j)
    requires TimeEntries(o) == NormalEntries(TIMES, j)
    requires PriceEntries(o) == NormalEntries(PRICES, j)
    requires ("position_intent", IntentEntry(o.positionIntent)) == NormalEntry(INTENT, j)
    requires ("legs", LegsEntry(legs)) == NormalEntry(LEGS, j)
    ensures PrintOrder(o.(legs := legs)) == NormalOrder(j)
  {
    hide RequiredEntries, TimeEntries, PriceEntries, IntentEntry, LegsEntry, NormalEntries, NormalEntry, Assemble;
    LegsKept(o, legs);
    NormalSplits(j);
    assert OrderEntries(o.(legs := legs)) == NormalEntries(SCHEMA, j);
  }

  /** The parser accepts exactly what conforms to the schema, and printing what it returns
      gives the normal form of the input, with its legs to any depth. */
  lemma {:induction false} ParseThenPrint(j: Json)
    ensures ParseOrder(j).Ok? <==> Conforms(j)
    ensures ParseOrder(j).Ok? ==> PrintOrder(ParseOrder(j).value) == NormalOrder(j)
    decreases j
  {
    hide RequiredEntries, TimeEntries, PriceEntries, IntentEntry, ParseMembers, RequiredFits, NormalEntries;
    hide PrintOrder, NormalOrder;
    if j.Obj? {
      MembersNormal(j);
      OptionalSplits(j);
      var members := ParseMembers(j.fields);
      if "legs" in j.fields && j.fields["legs"] != Null {
        if j.fields["legs"].Arr? {
          var items := j.fields["legs"].items;
          forall i | 0 <= i < |items|
            ensures ParseOrder(items[i]).Ok? <==> Conforms(items[i])
            ensures ParseOrder(items[i]).Ok? ==> PrintOrder(ParseOrder(items[i]).value) == NormalOrder(items[i])
          {
            ParseThenPrint(items[i]);
          }
          if ParseOrders(items).Ok? && members.Ok? {
            var orders := ParseOrders(items).value;
            assert PrintOrders(orders) == NormalOrders(items);
            MembersThenLegs(j, members.value, Legs(orders));
          }
        }
      } else if members.Ok? {
        MembersThenLegs(j, members.value, NoLegs);
        assert members.value.(legs := NoLegs) == members.value;
      }
    }
  }

  /** Normalising twice is normalising once. */
  lemma NormalIdempotent(j: Json)
    requires Conforms(j)
    ensures Conforms(NormalOrder(j)) && NormalOrder(NormalOrder(j)) == NormalOrder(j)
  {
    hide Conforms, NormalOrder, ParseOrder, PrintOrder;
    ParseThenPrint(j);
    OrderRoundTrip(ParseOrder(j).value);
    ParseThenPrint(NormalOrder(j));
  }

  /** The normal form has a member exactly when the schema names it and the input has it, not
      null: unknown members and nulls are dropped.  What is kept is kept in normal form. */
  lemma NormalHasExactly(j: Json, key: string)
    requires j.Obj?
    ensures key in NormalOrder(j).fields <==>
            (exists i :: 0 <= i < |SCHEMA| && SCHEMA[i].key == key) && key in j.fields && j.fields[key] != Null
    ensures forall i :: 0 <= i < |SCHEMA| && SCHEMA[i].key == key && key in NormalOrder(j).fields ==>
              NormalOrder(j).fields[key] == NormalMember(SCHEMA[i].kind, j.fields[key])
  {
    hide NormalMember;
    KeysDistinct();
    var e := NormalEntries(SCHEMA, j);
    forall a, b | 0 <= a < b < |e|
      ensures e[a].0 != e[b].0
    {
      assert SCHEMA[a].key != SCHEMA[b].key;
    }
    AssembleHas(e);
    if key in NormalOrder(j).fields {
      var i :| 0 <= i < |e| && e[i].0 == key;
      assert SCHEMA[i].key == key;
      assert e[i] == NormalEntry(SCHEMA[i], j);
    }
  }

  /** What the parser returns is what was there: printed again, every member but the legs and an
      empty order class is the member of the input.  With the keys of the printer this says which
      member each field was read from. */
  lemma ReadFromInput(j: Json, key: string)
    requires ParseOrder(j).Ok? && key in PrintOrder(ParseOrder(j).value).fields && key != "legs"
    ensures j.Obj? && key in j.fields
    ensures var shown := PrintOrder(ParseOrder(j).value).fields[key];
            shown == if key == "order_class" && j.fields[key] == Str("") then Str("simple") else j.fields[key]
  {
    hide Conforms, NormalOrder, ParseOrder, PrintOrder;
    ParseThenPrint(j);
    ObjectsConform(j);
    NormalHasExactly(j, key);
    var i :| 0 <= i < |SCHEMA| && SCHEMA[i].key == key;
    KindOfKey(i);
  }

  lemma ObjectsConform(j: Json)
    ensures Conforms(j) ==> j.Obj?
  {
  }

  /** Only the order class and the legs are of their kind. */
  lemma KindOfKey(i: nat)
    requires i < |SCHEMA|
    ensures SCHEMA[i].kind == OrderClassKind <==> SCHEMA[i].key == "order_class"
    ensures SCHEMA[i].kind == LegsKind <==> SCHEMA[i].key == "legs"
  {
    KeysDistinct();
    assert SCHEMA[7] == Member("order_class", OrderClassKind);
    assert SCHEMA[31] == Member("legs", LegsKind);
  }

  /** What an accepted order must have, spelled out. */
  lemma AcceptedHas(j: Json)
    requires ParseOrder(j).Ok?
    ensures j.Obj?
    ensures forall key :: key in {"id", "client_order_id", "created_at", "asset_id", "symbol", "filled_qty"} ==>
              key in j.fields && j.fields[key].Str?
    ensures forall key :: key in {"asset_class", "order_class", "order_type", "side", "time_in_force", "status"} ==>
              key in j.fields && j.fields[key].Str?
    ensures "extended_hours" in j.fields && j.fields["extended_hours"].Bool?
  {
  }
}
