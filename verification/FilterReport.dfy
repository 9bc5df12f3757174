/**
  What the validator reports: an error of each field and code is on its list exactly if the order
  breaks that rule, stated on the raw order, the listed filters and the context.
 */
module FilterReport {
  import opened Wrappers
  import opened Text
  import opened Decimal
  import opened OrderTypes
  import opened ExchangeFilters
  import opened FilterRules
  import opened FilterDecision

  ghost predicate Has(errors: Errors, field: string, code: string) {
    exists i :: 0 <= i < |errors| && errors[i].field == field && errors[i].code == code
  }

  // ---------- the broken rules ----------

  ghost predicate Below(x: Option<real>, bound: Option<string>) {
    x.Some? && PositiveMeaning(bound).Some? && x.value < PositiveMeaning(bound).value
  }

  ghost predicate Beyond(x: Option<real>, bound: Option<string>) {
    x.Some? && PositiveMeaning(bound).Some? && x.value > PositiveMeaning(bound).value
  }

  ghost predicate OffGrid(x: Option<real>, step: Option<string>) {
    x.Some? && PositiveMeaning(step).Some? && !MultipleOf(x.value, PositiveMeaning(step).value)
  }

  ghost predicate SymbolBroken(order: RawOrder, info: SymbolInfo, field: string, code: string) {
    var (mine, listed) := (Upper(Trim(order.symbol.GetOr(""))), Upper(Trim(info.symbol.GetOr(""))));
    field == "symbol" &&
    ((code == "SYMBOL_REQUIRED" && mine == "") ||
     (code == "SYMBOL_MISMATCH" && mine != "" && listed != "" && mine != listed))
  }

  ghost predicate SizeBroken(order: RawOrder, field: string, code: string) {
    var (quantity, quote) := (PositiveMeaning(order.quantity), PositiveMeaning(order.quoteOrderQty));
    || (field == "quantity" && code == "QUANTITY_REQUIRED" && quantity.None? && quote.None?)
    || (field == "quoteOrderQty" && code == "QUOTE_ORDER_QTY_EXCLUSIVE" && quantity.Some? && quote.Some?)
    || (field == "quoteOrderQty" && code == "QUOTE_ORDER_QTY_UNSUPPORTED" && quote.Some? &&
        TypeOf(order) != "MARKET")
  }

  /** The filter of quantities names itself in the code. */
  ghost predicate LotBroken(order: RawOrder, info: SymbolInfo, field: string, code: string) {
    var quantity := PositiveMeaning(order.quantity);
    field == "quantity" &&
    exists f :: LotInForce(order, info, f) && BoundsQuantity(f) &&
      var name := if TypeOf(order) == "MARKET" && Listed(info, "MARKET_LOT_SIZE", f) then "MARKET_LOT_SIZE"
                  else "LOT_SIZE";
      || (code == name + "_MIN" && Below(quantity, f.minQty))
      || (code == name + "_MAX" && Beyond(quantity, f.maxQty))
      || (code == name + "_STEP" && OffGrid(quantity, f.stepSize))
  }

  ghost predicate PriceBroken(text: Option<string>, info: SymbolInfo, name: string, field: string, code: string) {
    var price := PositiveMeaning(text);
    field == name &&
    exists f :: InForce(info, "PRICE_FILTER", f) &&
      (|| (code == "PRICE_FILTER_MIN" && Below(price, f.minPrice))
       || (code == "PRICE_FILTER_MAX" && Beyond(price, f.maxPrice))
       || (code == "PRICE_FILTER_TICK" && OffGrid(price, f.tickSize)))
  }

  ghost predicate RequiredBroken(order: RawOrder, field: string, code: string) {
    || (field == "price" && code == "PRICE_REQUIRED" && PositiveMeaning(order.price).None? &&
        TypeOf(order) in ["LIMIT", "STOP_LOSS_LIMIT", "TAKE_PROFIT_LIMIT", "LIMIT_MAKER"])
    || (field == "stopPrice" && code == "STOP_PRICE_REQUIRED" && PositiveMeaning(order.stopPrice).None? &&
        TypeOf(order) in ["STOP_LOSS", "STOP_LOSS_LIMIT", "TAKE_PROFIT", "TAKE_PROFIT_LIMIT"])
  }

  ghost predicate NotionalBroken(order: RawOrder, info: SymbolInfo, context: RawContext, field: string, code: string) {
    var n := NotionalOf(order, context);
    var marketLike := TypeOf(order) in ["MARKET", "STOP_LOSS", "TAKE_PROFIT"];
    field == "notional" &&
    (|| (code == "MIN_NOTIONAL_MIN" &&
         exists f :: InForce(info, "MIN_NOTIONAL", f) && Below(n, f.minNotional) && (!marketLike || f.applyToMarket))
     || (code == "NOTIONAL_MIN" &&
         exists f :: InForce(info, "NOTIONAL", f) && Below(n, f.minNotional) && (!marketLike || f.applyMinToMarket))
     || (code == "NOTIONAL_MAX" &&
         exists f :: InForce(info, "NOTIONAL", f) && Beyond(n, f.maxNotional) && (!marketLike || f.applyMaxToMarket)))
  }

  ghost predicate RiskBroken(order: RawOrder, info: SymbolInfo, context: RawContext, field: string, code: string) {
    || (field == "symbol" && code == "MAX_NUM_ORDERS" &&
        exists f :: Listed(info, "MAX_NUM_ORDERS", f) && !CountRule(context.openOrderCount, f.maxNumOrders))
    || (field == "symbol" && code == "MAX_NUM_ALGO_ORDERS" &&
        exists f :: Listed(info, "MAX_NUM_ALGO_ORDERS", f) &&
                    !CountRule(context.openAlgoOrderCount, f.maxNumAlgoOrders))
    || (field == "quantity" && code == "MAX_POSITION" &&
        exists f :: Listed(info, "MAX_POSITION", f) && !PositionRule(order, context, f))
  }

  ghost predicate Broken(order: RawOrder, info: SymbolInfo, context: RawContext, field: string, code: string) {
    || SymbolBroken(order, info, field, code)
    || SizeBroken(order, field, code)
    || LotBroken(order, info, field, code)
    || PriceBroken(order.price, info, "price", field, code)
    || PriceBroken(order.stopPrice, info, "stopPrice", field, code)
    || RequiredBroken(order, field, code)
    || NotionalBroken(order, info, context, field, code)
    || RiskBroken(order, info, context, field, code)
  }

  // ---------- one rule at a time ----------

  lemma PushSays(errors: Errors, condition: bool, field: string, code: string, message: string, f: string, c: string)
    ensures Has(PushIf(errors, condition, field, code, message), f, c) <==>
            Has(errors, f, c) || (condition && f == field && c == code)
  {
    if condition {
      var more := errors + [FilterError(field, code, message)];
      assert more[|errors|] == FilterError(field, code, message);
      assert forall i :: 0 <= i < |errors| ==> more[i] == errors[i];
    }
  }

  /** A bound on a normalised decimal is the raw text's. */
  lemma {:induction false} BoundSays(d: Option<Dec>, x: Option<real>, bound: Option<Dec>, raw: Option<string>)
    requires ValueOf(d) == x && ValueOf(bound) == PositiveMeaning(raw)
    ensures d.Some? ==>
              && (Under(d.value, bound) <==> Below(x, raw)) && (Over(d.value, bound) <==> Beyond(x, raw))
              && (OffStep(d.value, bound) <==> OffGrid(x, raw))
    ensures d.None? ==> !Below(x, raw) && !Beyond(x, raw) && !OffGrid(x, raw)
  {
    hide PositiveMeaning, Value, MultipleOf, Under, Over, OffStep;
    if d.Some? {
      BoundsMean(d.value, bound);
    }
  }

  lemma {:induction false} SymbolSays(e: Errors, order: RawOrder, info: SymbolInfo, field: string, code: string)
    ensures Has(SymbolErrors(e, NormalizeOrder(order, ReadPositive), NormalizeFilters(info, ReadPositive)), field,
                code) <==>
            Has(e, field, code) || SymbolBroken(order, info, field, code)
  {
    var (o, f) := (NormalizeOrder(order, ReadPositive), NormalizeFilters(info, ReadPositive));
    hide Has, PushIf, Trim, Upper, ReadPositive, Choose, NormalizeLot, NormalizeMarketLot, NormalizePriceFilter;
    hide NormalizeMinNotional, NormalizeNotional, ReadMaxPosition, NormalizeInteger, NormalizeOrderType, MustMatch;
    PushSays(e, true, "symbol", "SYMBOL_REQUIRED", "symbol is required", field, code);
    PushSays(e, f.symbol.Some? && o.symbol != f.symbol.value, "symbol", "SYMBOL_MISMATCH",
        MustMatch(f.symbol.GetOr("")), field, code);
  }

  /** What is read of an order, as numbers. */
  lemma {:induction false} OrderSays(order: RawOrder)
    ensures var o := NormalizeOrder(order, ReadPositive);
            && ValueOf(o.quantity) == PositiveMeaning(order.quantity)
            && ValueOf(o.quoteOrderQty) == PositiveMeaning(order.quoteOrderQty)
            && ValueOf(o.price) == PositiveMeaning(order.price)
            && ValueOf(o.stopPrice) == PositiveMeaning(order.stopPrice)
            && o.orderType == TypeOf(order) && o.side == Upper(Trim(order.side.GetOr("")))
  {
    ReadersMean();
    TypeIs(order);
    hide PositiveMeaning, ReadPositive, Value, Trim, Upper;
  }

  lemma {:induction false} SizeSays(e: Errors, order: RawOrder, field: string, code: string)
    ensures Has(SizingErrors(e, NormalizeOrder(order, ReadPositive)), field, code) <==>
            Has(e, field, code) || SizeBroken(order, field, code)
  {
    OrderSays(order);
    var o := NormalizeOrder(order, ReadPositive);
    hide Has, PushIf, NormalizeOrder, PositiveMeaning, TypeOf, Value;
    var e1 := PushIf(e, o.quantity.None? && o.quoteOrderQty.None?,
        "quantity", "QUANTITY_REQUIRED", "quantity or quoteOrderQty is required");
    PushSays(e, o.quantity.None? && o.quoteOrderQty.None?,
        "quantity", "QUANTITY_REQUIRED", "quantity or quoteOrderQty is required", field, code);
    var e2 := PushIf(e1, o.quantity.Some? && o.quoteOrderQty.Some?,
        "quoteOrderQty", "QUOTE_ORDER_QTY_EXCLUSIVE", "quantity and quoteOrderQty are mutually exclusive");
    PushSays(e1, o.quantity.Some? && o.quoteOrderQty.Some?,
        "quoteOrderQty", "QUOTE_ORDER_QTY_EXCLUSIVE", "quantity and quoteOrderQty are mutually exclusive", field, code);
    PushSays(e2, o.quoteOrderQty.Some? && o.orderType != "MARKET", "quoteOrderQty", "QUOTE_ORDER_QTY_UNSUPPORTED",
        "quoteOrderQty is only supported for MARKET orders", field, code);
  }

  lemma {:induction false} QuantitySays(e: Errors, f: QuantityFilter<Dec>, raw: RawFilter, q: Dec, x: Option<real>,
      field: string, code: string)
    requires ReadsQuantity(f, raw, f.filterType) && ValueOf(Some(q)) == x
    ensures Has(QuantityErrors(e, "quantity", f, q), field, code) <==>
              || Has(e, field, code)
              || (field == "quantity" &&
                  (|| (code == f.filterType + "_MIN" && Below(x, raw.minQty))
                   || (code == f.filterType + "_MAX" && Beyond(x, raw.maxQty))
                   || (code == f.filterType + "_STEP" && OffGrid(x, raw.stepSize))))
  {
    BoundSays(Some(q), x, f.minQty, raw.minQty);
    BoundSays(Some(q), x, f.maxQty, raw.maxQty);
    BoundSays(Some(q), x, f.stepSize, raw.stepSize);
    CodesAre(f.filterType);
    hide Has, PushIf, Below, Beyond, OffGrid, Under, Over, OffStep, AtLeast, AtMost, AlignTo, Show, MinCode, MaxCode;
    hide StepCode, ValueOf, PositiveMeaning;
    var e1 := PushIf(e, Under(q, f.minQty), "quantity", MinCode(f.filterType), AtLeast("quantity", Show(f.minQty)));
    PushSays(e, Under(q, f.minQty), "quantity", MinCode(f.filterType), AtLeast("quantity", Show(f.minQty)), field,
        code);
    var e2 := PushIf(e1, Over(q, f.maxQty), "quantity", MaxCode(f.filterType), AtMost("quantity", Show(f.maxQty)));
    PushSays(e1, Over(q, f.maxQty), "quantity", MaxCode(f.filterType), AtMost("quantity", Show(f.maxQty)), field, code);
    PushSays(e2, OffStep(q, f.stepSize), "quantity", StepCode(f.filterType),
        AlignTo("quantity", "stepSize", Show(f.stepSize)), field, code);
  }

  lemma CodesAre(filterType: string)
    ensures MinCode(filterType) == filterType + "_MIN" && MaxCode(filterType) == filterType + "_MAX"
    ensures StepCode(filterType) == filterType + "_STEP"
  {
  }

  /** The normalised filter that is used, and the raw one it comes from. */
  lemma {:induction false} LotSays(order: RawOrder, info: SymbolInfo)
    ensures var (used, f) := (LotUsed(order, info),
                SelectQuantityFilter(TypeOf(order), NormalizeFilters(info, ReadPositive)));
            && (f.Some? <==> BoundsQuantity(used))
            && (f.Some? ==>
                  ReadsQuantity(f.value, used,
                    if TypeOf(order) == "MARKET" && Listed(info, "MARKET_LOT_SIZE", used) then "MARKET_LOT_SIZE"
                    else "LOT_SIZE"))
  {
    var used := LotUsed(order, info);
    var (lot, market) := (ByType(info.filters, "LOT_SIZE").GetOr(info.flat), ByType(info.filters, "MARKET_LOT_SIZE"));
    ListedIs(info, "LOT_SIZE", lot);
    LotFilterMeans(info, lot);
    ListedIs(info, "MARKET_LOT_SIZE", used);
    if market.Some? {
      ListedIs(info, "MARKET_LOT_SIZE", market.value);
      MarketLotFilterMeans(info, market.value);
    } else {
      MarketLotFilterMeans(info, lot);
      forall g
        ensures !Listed(info, "MARKET_LOT_SIZE", g)
      {
        ListedIs(info, "MARKET_LOT_SIZE", g);
      }
    }
    hide Listed, InForce, ByType, TypeOf, BoundsQuantity, ReadsQuantity, NormalizeFilters;
  }

  lemma {:induction false} LotErrorsSay(e: Errors, order: RawOrder, info: SymbolInfo, field: string, code: string)
    ensures Has(LotErrors(e, NormalizeOrder(order, ReadPositive), NormalizeFilters(info, ReadPositive)), field,
                code) <==>
            Has(e, field, code) || LotBroken(order, info, field, code)
  {
    OrderSays(order);
    LotSays(order, info);
    LotBrokenIs(order, info, field, code);
    var (o, f) := (NormalizeOrder(order, ReadPositive), NormalizeFilters(info, ReadPositive));
    var lot := SelectQuantityFilter(o.orderType, f);
    hide Has, NormalizeOrder, NormalizeFilters, LotBroken, QuantityErrors, SelectQuantityFilter, ReadsQuantity, TypeOf;
    hide Below, Beyond, OffGrid, LotUsed, Listed, BoundsQuantity, PositiveMeaning, Value;
    if o.quantity.Some? && lot.Some? {
      ReadsName(lot.value, LotUsed(order, info), LotName(order, info));
      QuantitySays(e, lot.value, LotUsed(order, info), o.quantity.value, PositiveMeaning(order.quantity), field, code);
    } else {
      NothingBroken(order, LotUsed(order, info));
    }
  }

  lemma ReadsName(out: QuantityFilter<Dec>, f: RawFilter, name: string)
    requires ReadsQuantity(out, f, name)
    ensures out.filterType == name
  {
  }

  lemma NothingBroken(order: RawOrder, f: RawFilter)
    ensures var x := PositiveMeaning(order.quantity);
            x.None? || !BoundsQuantity(f) ==> !Below(x, f.minQty) && !Beyond(x, f.maxQty) && !OffGrid(x, f.stepSize)
  {
    hide PositiveMeaning, MultipleOf;
  }

  ghost function LotName(order: RawOrder, info: SymbolInfo): string {
    if TypeOf(order) == "MARKET" && Listed(info, "MARKET_LOT_SIZE", LotUsed(order, info)) then "MARKET_LOT_SIZE"
    else "LOT_SIZE"
  }

  lemma {:induction false} LotBrokenIs(order: RawOrder, info: SymbolInfo, field: string, code: string)
    ensures var (x, f, name) := (PositiveMeaning(order.quantity), LotUsed(order, info), LotName(order, info));
            LotBroken(order, info, field, code) <==>
              && field == "quantity" && BoundsQuantity(f)
              && (|| (code == name + "_MIN" && Below(x, f.minQty))
                  || (code == name + "_MAX" && Beyond(x, f.maxQty))
                  || (code == name + "_STEP" && OffGrid(x, f.stepSize)))
  {
    var used := LotUsed(order, info);
    LotUsedIs(order, info, used);
    hide LotInForce, LotUsed, Below, Beyond, OffGrid, BoundsQuantity, Listed, TypeOf, PositiveMeaning;
    forall f | LotInForce(order, info, f)
      ensures f == used
    {
      LotUsedIs(order, info, f);
    }
  }

  lemma {:induction false} PriceErrorsSay(e: Errors, text: Option<string>, d: Option<Dec>, info: SymbolInfo,
      name: string, field: string, code: string)
    requires ValueOf(d) == PositiveMeaning(text)
    ensures Has(OptionalPriceErrors(e, name, NormalizeFilters(info, ReadPositive).priceFilter, d), field, code) <==>
            Has(e, field, code) || PriceBroken(text, info, name, field, code)
  {
    var (raw, x) := (ByType(info.filters, "PRICE_FILTER").GetOr(info.flat), PositiveMeaning(text));
    var f := NormalizeFilters(info, ReadPositive).priceFilter;
    ListedIs(info, "PRICE_FILTER", raw);
    PriceFilterMeans(info, raw);
    PriceBrokenIs(text, info, name, field, code);
    BoundSays(d, x, f.minPrice, raw.minPrice);
    BoundSays(d, x, f.maxPrice, raw.maxPrice);
    BoundSays(d, x, f.tickSize, raw.tickSize);
    hide Has, PushIf, Below, Beyond, OffGrid, Under, Over, OffStep, AtLeast, AtMost, AlignTo, Show, ValueOf;
    hide PositiveMeaning, PriceBroken, ByType, NormalizeFilters, InForce, Listed;
    if d.Some? {
      var e1 := PushIf(e, Under(d.value, f.minPrice), name, "PRICE_FILTER_MIN", AtLeast(name, Show(f.minPrice)));
      PushSays(e, Under(d.value, f.minPrice), name, "PRICE_FILTER_MIN", AtLeast(name, Show(f.minPrice)), field, code);
      var e2 := PushIf(e1, Over(d.value, f.maxPrice), name, "PRICE_FILTER_MAX", AtMost(name, Show(f.maxPrice)));
      PushSays(e1, Over(d.value, f.maxPrice), name, "PRICE_FILTER_MAX", AtMost(name, Show(f.maxPrice)), field, code);
      PushSays(e2, OffStep(d.value, f.tickSize), name, "PRICE_FILTER_TICK",
          AlignTo(name, "tickSize", Show(f.tickSize)), field, code);
    }
  }

  lemma {:induction false} PriceBrokenIs(text: Option<string>, info: SymbolInfo, name: string, field: string,
      code: string)
    ensures var (x, f) := (PositiveMeaning(text), ByType(info.filters, "PRICE_FILTER").GetOr(info.flat));
            PriceBroken(text, info, name, field, code) <==>
              && field == name
              && (|| (code == "PRICE_FILTER_MIN" && Below(x, f.minPrice))
                  || (code == "PRICE_FILTER_MAX" && Beyond(x, f.maxPrice))
                  || (code == "PRICE_FILTER_TICK" && OffGrid(x, f.tickSize)))
  {
    var used := ByType(info.filters, "PRICE_FILTER").GetOr(info.flat);
    ListedIs(info, "PRICE_FILTER", used);
    hide InForce, ByType, Below, Beyond, OffGrid, PositiveMeaning;
    forall f | InForce(info, "PRICE_FILTER", f)
      ensures f == used
    {
      ListedIs(info, "PRICE_FILTER", f);
    }
  }

  lemma {:induction false} RequiredErrorsSay(e: Errors, order: RawOrder, field: string, code: string)
    ensures Has(RequiredPriceErrors(e, NormalizeOrder(order, ReadPositive)), field, code) <==>
            Has(e, field, code) || RequiredBroken(order, field, code)
  {
    OrderSays(order);
    TypesNeed(TypeOf(order));
    var o := NormalizeOrder(order, ReadPositive);
    hide Has, PushIf, NormalizeOrder, PositiveMeaning, TypeOf, Value, NeedsPrice, NeedsStopPrice, Requires;
    var e1 := PushIf(e, NeedsPrice(o.orderType) && o.price.None?, "price", "PRICE_REQUIRED",
        Requires(o.orderType, "price"));
    PushSays(e, NeedsPrice(o.orderType) && o.price.None?, "price", "PRICE_REQUIRED", Requires(o.orderType, "price"),
        field, code);
    PushSays(e1, NeedsStopPrice(o.orderType) && o.stopPrice.None?, "stopPrice", "STOP_PRICE_REQUIRED",
        Requires(o.orderType, "stopPrice"), field, code);
  }

  /** What is read of the context. */
  lemma {:induction false} ContextSays(context: RawContext)
    ensures var c := NormalizeContext(context, ReadPositive, ReadNonNegative);
            && ValueOf(c.referencePrice) == PositiveMeaning(ReferenceOf(context))
            && c.openOrderCount == context.openOrderCount && c.openAlgoOrderCount == context.openAlgoOrderCount
            && ValueOf(c.position) == Meaning(context.baseAssetPositionQuantity)
  {
    ReadersMean();
    ReadsNothing();
    hide PositiveMeaning, ReadPositive, Value, Meaning, ReadNonNegative;
  }

  lemma {:induction false} NotionalValueSays(order: RawOrder, context: RawContext)
    ensures ValueOf(SelectNotional(NormalizeOrder(order, ReadPositive),
                NormalizeContext(context, ReadPositive, ReadNonNegative).referencePrice)) == NotionalOf(order, context)
  {
    var o := NormalizeOrder(order, ReadPositive);
    var reference := NormalizeContext(context, ReadPositive, ReadNonNegative).referencePrice;
    OrderSays(order);
    ContextSays(context);
    NotionalMeans(o, reference);
    hide NormalizeOrder, NormalizeContext, SelectNotional, PositiveMeaning, Cost, ReferenceOf, Value, TypeOf;
  }

  lemma {:induction false} NotionalErrorsSay(e: Errors, order: RawOrder, info: SymbolInfo, context: RawContext,
      field: string, code: string)
    ensures Has(NotionalErrors(e, NormalizeOrder(order, ReadPositive), NormalizeFilters(info, ReadPositive),
                NormalizeContext(context, ReadPositive, ReadNonNegative).referencePrice), field, code) <==>
            Has(e, field, code) || NotionalBroken(order, info, context, field, code)
  {
    var (o, f) := (NormalizeOrder(order, ReadPositive), NormalizeFilters(info, ReadPositive));
    var reference := NormalizeContext(context, ReadPositive, ReadNonNegative).referencePrice;
    var (d, n) := (SelectNotional(o, reference), NotionalOf(order, context));
    OrderSays(order);
    NotionalValueSays(order, context);
    NotionalBrokenIs(order, info, context, field, code);
    NotionalBoundsSay(order, info);
    var (min, notional) := (ByType(info.filters, "MIN_NOTIONAL").GetOr(info.flat),
        ByType(info.filters, "NOTIONAL").GetOr(info.flat));
    hide NormalizeOrder, NormalizeContext, NormalizeFilters, SelectNotional, NotionalOf, NotionalBroken, ByType, TypeOf;
    hide Has, PositiveMeaning, MinNotionalBound, NotionalMin, NotionalMax, Value;
    if d.Some? {
      var (b1, b2, b3) := (MinNotionalBound(f, o.orderType), NotionalMin(f, o.orderType), NotionalMax(f, o.orderType));
      NotionalPushes(e, d.value, b1, b2, b3, field, code);
      hide Under, Over, MinNotionalErrors, MaxNotionalErrors;
      BoundApplies(d.value, n, b1, min.minNotional);
      BoundApplies(d.value, n, b2, notional.minNotional);
      BoundApplies(d.value, n, b3, notional.maxNotional);
    }
  }

  lemma {:induction false} BoundApplies(d: Dec, n: Option<real>, bound: Option<Dec>, raw: Option<string>)
    requires ValueOf(Some(d)) == n
    requires bound.Some? ==> ValueOf(bound) == PositiveMeaning(raw)
    ensures Under(d, bound) <==> bound.Some? && Below(n, raw)
    ensures Over(d, bound) <==> bound.Some? && Beyond(n, raw)
  {
    hide PositiveMeaning, Value;
    if bound.Some? {
      BoundSays(Some(d), n, bound, raw);
    }
  }

  lemma NotionalCodes()
    ensures MinCode("MIN_NOTIONAL") == "MIN_NOTIONAL_MIN" && MinCode("NOTIONAL") == "NOTIONAL_MIN"
    ensures MaxCode("NOTIONAL") == "NOTIONAL_MAX"
  {
  }

  lemma {:induction false} NotionalPushes(e: Errors, d: Dec, b1: Option<Dec>, b2: Option<Dec>, b3: Option<Dec>,
      field: string, code: string)
    ensures var e1 := MinNotionalErrors(e, d, b1, "MIN_NOTIONAL");
            var e2 := MinNotionalErrors(e1, d, b2, "NOTIONAL");
            Has(MaxNotionalErrors(e2, d, b3, "NOTIONAL"), field, code) <==>
              || Has(e, field, code)
              || (field == "notional" &&
                  (|| (code == "MIN_NOTIONAL_MIN" && Under(d, b1)) || (code == "NOTIONAL_MIN" && Under(d, b2))
                   || (code == "NOTIONAL_MAX" && Over(d, b3))))
  {
    NotionalCodes();
    hide Has, PushIf, Under, Over, AtLeast, AtMost, Show, MinCode, MaxCode, StepCode;
    var e1 := MinNotionalErrors(e, d, b1, "MIN_NOTIONAL");
    var e2 := MinNotionalErrors(e1, d, b2, "NOTIONAL");
    PushSays(e, Under(d, b1), "notional", MinCode("MIN_NOTIONAL"), AtLeast("notional", Show(b1)), field, code);
    PushSays(e1, Under(d, b2), "notional", MinCode("NOTIONAL"), AtLeast("notional", Show(b2)), field, code);
    PushSays(e2, Over(d, b3), "notional", MaxCode("NOTIONAL"), AtMost("notional", Show(b3)), field, code);
  }

  /** Which bounds apply, and what they are. */
  lemma {:induction false} NotionalBoundsSay(order: RawOrder, info: SymbolInfo)
    ensures var f := NormalizeFilters(info, ReadPositive);
            var marketLike := TypeOf(order) in ["MARKET", "STOP_LOSS", "TAKE_PROFIT"];
            var (min, notional) := (ByType(info.filters, "MIN_NOTIONAL").GetOr(info.flat),
                ByType(info.filters, "NOTIONAL").GetOr(info.flat));
            var (b1, b2, b3) := (MinNotionalBound(f, TypeOf(order)), NotionalMin(f, TypeOf(order)),
                NotionalMax(f, TypeOf(order)));
            && ValueOf(b1) ==
                 (if !marketLike || min.applyToMarket then PositiveMeaning(min.minNotional) else None)
            && ValueOf(b2) ==
                 (if !marketLike || notional.applyMinToMarket then PositiveMeaning(notional.minNotional) else None)
            && ValueOf(b3) ==
                 (if !marketLike || notional.applyMaxToMarket then PositiveMeaning(notional.maxNotional) else None)
  {
    var (min, notional) := (ByType(info.filters, "MIN_NOTIONAL").GetOr(info.flat),
        ByType(info.filters, "NOTIONAL").GetOr(info.flat));
    ListedIs(info, "MIN_NOTIONAL", min);
    ListedIs(info, "NOTIONAL", notional);
    NotionalFiltersMean(info, min);
    NotionalFiltersMean(info, notional);
    hide InForce, Listed, ByType, NormalizeFilters, PositiveMeaning, Value, TypeOf;
  }

  lemma {:induction false} NotionalBrokenIs(order: RawOrder, info: SymbolInfo, context: RawContext, field: string,
      code: string)
    ensures var n := NotionalOf(order, context);
            var marketLike := TypeOf(order) in ["MARKET", "STOP_LOSS", "TAKE_PROFIT"];
            var (min, notional) := (ByType(info.filters, "MIN_NOTIONAL").GetOr(info.flat),
                ByType(info.filters, "NOTIONAL").GetOr(info.flat));
            NotionalBroken(order, info, context, field, code) <==>
              field == "notional" &&
              (|| (code == "MIN_NOTIONAL_MIN" && Below(n, min.minNotional) && (!marketLike || min.applyToMarket))
               || (code == "NOTIONAL_MIN" && Below(n, notional.minNotional) &&
                   (!marketLike || notional.applyMinToMarket))
               || (code == "NOTIONAL_MAX" && Beyond(n, notional.maxNotional) &&
                   (!marketLike || notional.applyMaxToMarket)))
  {
    var (min, notional) := (ByType(info.filters, "MIN_NOTIONAL").GetOr(info.flat),
        ByType(info.filters, "NOTIONAL").GetOr(info.flat));
    ListedIs(info, "MIN_NOTIONAL", min);
    ListedIs(info, "NOTIONAL", notional);
    hide InForce, ByType, Below, Beyond, PositiveMeaning, TypeOf, NotionalOf;
    forall f
      ensures InForce(info, "MIN_NOTIONAL", f) ==> f == min
      ensures InForce(info, "NOTIONAL", f) ==> f == notional
    {
      ListedIs(info, "MIN_NOTIONAL", f);
      ListedIs(info, "NOTIONAL", f);
    }
  }

  lemma {:induction false} RiskErrorsSay(e: Errors, order: RawOrder, info: SymbolInfo, context: RawContext,
      field: string, code: string)
    ensures Has(RiskErrors(e, NormalizeOrder(order, ReadPositive), NormalizeFilters(info, ReadPositive),
                NormalizeContext(context, ReadPositive, ReadNonNegative)), field, code) <==>
            Has(e, field, code) || RiskBroken(order, info, context, field, code)
  {
    var (o, f) := (NormalizeOrder(order, ReadPositive), NormalizeFilters(info, ReadPositive));
    var c := NormalizeContext(context, ReadPositive, ReadNonNegative);
    RiskSays(order, info, context);
    hide NormalizeOrder, NormalizeContext, NormalizeFilters, CountReached, PositionExceeded, Has, PushIf, CountBelow;
    hide AtMost, Show, CountRule, PositionRule, Listed;
    var e1 := PushIf(e, CountReached(c.openOrderCount, f.maxNumOrders), "symbol", "MAX_NUM_ORDERS",
        CountBelow("open order", f.maxNumOrders.GetOr(0)));
    PushSays(e, CountReached(c.openOrderCount, f.maxNumOrders), "symbol", "MAX_NUM_ORDERS",
        CountBelow("open order", f.maxNumOrders.GetOr(0)), field, code);
    var e2 := PushIf(e1, CountReached(c.openAlgoOrderCount, f.maxNumAlgoOrders), "symbol", "MAX_NUM_ALGO_ORDERS",
        CountBelow("open algo order", f.maxNumAlgoOrders.GetOr(0)));
    PushSays(e1, CountReached(c.openAlgoOrderCount, f.maxNumAlgoOrders), "symbol", "MAX_NUM_ALGO_ORDERS",
        CountBelow("open algo order", f.maxNumAlgoOrders.GetOr(0)), field, code);
    PushSays(e2, PositionExceeded(o, f.maxPosition, c.position), "quantity", "MAX_POSITION",
        AtMost("projected position", Show(f.maxPosition)), field, code);
  }

  /** Each limit is reached exactly if some listed filter's rule is broken. */
  lemma {:induction false} RiskSays(order: RawOrder, info: SymbolInfo, context: RawContext)
    ensures var (o, f) := (NormalizeOrder(order, ReadPositive), NormalizeFilters(info, ReadPositive));
            var c := NormalizeContext(context, ReadPositive, ReadNonNegative);
            && (CountReached(c.openOrderCount, f.maxNumOrders) <==>
                exists g :: Listed(info, "MAX_NUM_ORDERS", g) && !CountRule(context.openOrderCount, g.maxNumOrders))
            && (CountReached(c.openAlgoOrderCount, f.maxNumAlgoOrders) <==>
                exists g :: Listed(info, "MAX_NUM_ALGO_ORDERS", g) &&
                            !CountRule(context.openAlgoOrderCount, g.maxNumAlgoOrders))
            && (PositionExceeded(o, f.maxPosition, c.position) <==>
                exists g :: Listed(info, "MAX_POSITION", g) && !PositionRule(order, context, g))
  {
    ContextSays(context);
    OrderCountSays(info, context.openOrderCount);
    AlgoCountSays(info, context.openAlgoOrderCount);
    PositionSays(order, info, context);
    hide NormalizeOrder, NormalizeContext, NormalizeFilters, Listed, PositiveMeaning, Meaning, CountRule, PositionRule;
    hide CountReached, PositionExceeded, Value;
  }

  lemma {:induction false} OrderCountSays(info: SymbolInfo, count: Option<real>)
    ensures CountReached(count, NormalizeFilters(info, ReadPositive).maxNumOrders) <==>
            exists g :: Listed(info, "MAX_NUM_ORDERS", g) && !CountRule(count, g.maxNumOrders)
  {
    FiltersRead(info);
    CountsPick(info);
    var listed := ByType(info.filters, "MAX_NUM_ORDERS");
    CountRuleIs(count, listed);
    hide NormalizeFilters, Listed, ByType, CountRule, NormalizeInteger;
    if listed.Some? {
      ListedIs(info, "MAX_NUM_ORDERS", listed.value);
    }
    forall g | Listed(info, "MAX_NUM_ORDERS", g)
      ensures listed == Some(g)
    {
      ListedIs(info, "MAX_NUM_ORDERS", g);
    }
  }

  lemma {:induction false} AlgoCountSays(info: SymbolInfo, count: Option<real>)
    ensures CountReached(count, NormalizeFilters(info, ReadPositive).maxNumAlgoOrders) <==>
            exists g :: Listed(info, "MAX_NUM_ALGO_ORDERS", g) && !CountRule(count, g.maxNumAlgoOrders)
  {
    FiltersRead(info);
    CountsPick(info);
    var listed := ByType(info.filters, "MAX_NUM_ALGO_ORDERS");
    CountRuleIs(count, listed);
    hide NormalizeFilters, Listed, ByType, CountRule, NormalizeInteger;
    if listed.Some? {
      ListedIs(info, "MAX_NUM_ALGO_ORDERS", listed.value);
    }
    forall g | Listed(info, "MAX_NUM_ALGO_ORDERS", g)
      ensures listed == Some(g)
    {
      ListedIs(info, "MAX_NUM_ALGO_ORDERS", g);
    }
  }

  lemma {:induction false} PositionSays(order: RawOrder, info: SymbolInfo, context: RawContext)
    ensures var (o, f) := (NormalizeOrder(order, ReadPositive), NormalizeFilters(info, ReadPositive));
            PositionExceeded(o, f.maxPosition, NormalizeContext(context, ReadPositive, ReadNonNegative).position) <==>
            exists g :: Listed(info, "MAX_POSITION", g) && !PositionRule(order, context, g)
  {
    var (o, f) := (NormalizeOrder(order, ReadPositive), NormalizeFilters(info, ReadPositive));
    var c := NormalizeContext(context, ReadPositive, ReadNonNegative);
    OrderSays(order);
    ContextSays(context);
    FiltersRead(info);
    FiltersPick(info);
    ExceededSays(o, f.maxPosition, c.position);
    var listed := ByType(info.filters, "MAX_POSITION");
    hide NormalizeOrder, NormalizeContext, NormalizeFilters, Listed, ByType, PositiveMeaning, Meaning;
    hide PositionExceeded, Trim, Upper, Value, TypeOf;
    if listed.Some? {
      ListedIs(info, "MAX_POSITION", listed.value);
    }
    forall g | Listed(info, "MAX_POSITION", g)
      ensures listed == Some(g)
    {
      ListedIs(info, "MAX_POSITION", g);
    }
  }

  lemma {:induction false} ExceededSays(o: Order<Dec>, max: Option<Dec>, position: Option<Dec>)
    ensures PositionExceeded(o, max, position) <==>
            && o.side == "BUY" && max.Some? && position.Some? && o.quantity.Some?
            && ValueOf(position).value + ValueOf(o.quantity).value > ValueOf(max).value
  {
    hide Value, Add, Over;
    if position.Some? && o.quantity.Some? {
      AddIsExact(position.value, o.quantity.value);
      BoundsMean(Add(position.value, o.quantity.value), max);
    }
  }

  // ---------- the whole report ----------

  /** An error of a field and code is reported exactly if that rule is broken. */
  lemma {:induction false} ErrorsSay(order: RawOrder, info: SymbolInfo, context: RawContext, field: string,
      code: string)
    ensures Has(Validate(order, info, context).errors, field, code) <==> Broken(order, info, context, field, code)
  {
    var (o, f) := (NormalizeOrder(order, ReadPositive), NormalizeFilters(info, ReadPositive));
    var c := NormalizeContext(context, ReadPositive, ReadNonNegative);
    OrderSays(order);
    NothingReported(field, code);
    hide Has, NormalizeOrder, NormalizeFilters, NormalizeContext, SymbolBroken, SizeBroken, LotBroken, PriceBroken;
    hide RequiredBroken, NotionalBroken, RiskBroken, SymbolErrors, SizingErrors, LotErrors, OptionalPriceErrors;
    hide RequiredPriceErrors, NotionalErrors, RiskErrors, ValueOf, PositiveMeaning, TypeOf, Upper, Trim;
    var e1 := SymbolErrors([], o, f);
    SymbolSays([], order, info, field, code);
    var e2 := SizingErrors(e1, o);
    SizeSays(e1, order, field, code);
    var e3 := LotErrors(e2, o, f);
    LotErrorsSay(e2, order, info, field, code);
    var e4 := OptionalPriceErrors(e3, "price", f.priceFilter, o.price);
    PriceErrorsSay(e3, order.price, o.price, info, "price", field, code);
    var e5 := OptionalPriceErrors(e4, "stopPrice", f.priceFilter, o.stopPrice);
    PriceErrorsSay(e4, order.stopPrice, o.stopPrice, info, "stopPrice", field, code);
    var e6 := RequiredPriceErrors(e5, o);
    RequiredErrorsSay(e5, order, field, code);
    var e7 := NotionalErrors(e6, o, f, c.referencePrice);
    NotionalErrorsSay(e6, order, info, context, field, code);
    RiskErrorsSay(e7, order, info, context, field, code);
  }

  lemma NothingReported(field: string, code: string)
    ensures !Has([], field, code)
  {
  }
}
