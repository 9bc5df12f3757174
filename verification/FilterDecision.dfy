/**
  What the exchange-filter decision means: the validator accepts exactly the orders that satisfy a
  predicate over real numbers, and its whole answer depends only on the numbers, not their spelling.
 */
module FilterDecision {
  import opened Wrappers
  import opened Text
  import opened Decimal
  import opened OrderTypes
  import opened ExchangeFilters
  import opened FilterRules

  // ---------- the decision over the reals ----------

  ghost predicate Fits(x: real, min: Option<real>, max: Option<real>, step: Option<real>) {
    && (min.Some? ==> x >= min.value)
    && (max.Some? ==> x <= max.value)
    && (step.Some? ==> MultipleOf(x, step.value))
  }

  ghost predicate LotFits(o: Order<real>, f: Filters<real>) {
    var lot := if o.orderType == "MARKET" && f.marketLotSize.Some? then f.marketLotSize else f.lotSize;
    o.quantity.Some? && lot.Some? ==> Fits(o.quantity.value, lot.value.minQty, lot.value.maxQty, lot.value.stepSize)
  }

  ghost predicate PriceFits(price: Option<real>, f: PriceFilter<real>) {
    price.Some? ==> Fits(price.value, f.minPrice, f.maxPrice, f.tickSize)
  }

  /** The quote amount itself, or quantity times the first known of price, reference price and stop price. */
  function OrderNotional(o: Order<real>, referencePrice: Option<real>): Option<real> {
    if o.quoteOrderQty.Some? then o.quoteOrderQty
    else
      var price := OrElse(OrElse(o.price, referencePrice), o.stopPrice);
      if o.quantity.None? || price.None? then None else Some(Cost(o.quantity.value, price.value))
  }

  predicate NotionalFits(n: real, orderType: string, f: Filters<real>) {
    && (f.minNotional.Some? && (!MarketLike(orderType) || f.minNotional.value.applyToMarket) ==>
          n >= f.minNotional.value.minNotional)
    && (f.notional.Some? && f.notional.value.minNotional.Some? &&
        (!MarketLike(orderType) || f.notional.value.applyMinToMarket) ==>
          n >= f.notional.value.minNotional.value)
    && (f.notional.Some? && f.notional.value.maxNotional.Some? &&
        (!MarketLike(orderType) || f.notional.value.applyMaxToMarket) ==>
          n <= f.notional.value.maxNotional.value)
  }

  predicate RiskFits(o: Order<real>, f: Filters<real>, c: Context<real>) {
    && (f.maxNumOrders.Some? && c.openOrderCount.Some? ==> c.openOrderCount.value < f.maxNumOrders.value as real)
    && (f.maxNumAlgoOrders.Some? && c.openAlgoOrderCount.Some? ==>
          c.openAlgoOrderCount.value < f.maxNumAlgoOrders.value as real)
    && (f.maxPosition.Some? && o.side == "BUY" && c.position.Some? && o.quantity.Some? ==>
          c.position.value + o.quantity.value <= f.maxPosition.value)
  }

  ghost predicate Accepts(o: Order<real>, f: Filters<real>, c: Context<real>) {
    && o.symbol != "" && (f.symbol.Some? ==> o.symbol == f.symbol.value)
    && (o.quantity.Some? <==> o.quoteOrderQty.None?)
    && (o.quoteOrderQty.Some? ==> o.orderType == "MARKET")
    && LotFits(o, f)
    && PriceFits(o.price, f.priceFilter)
    && PriceFits(o.stopPrice, f.priceFilter)
    && (NeedsPrice(o.orderType) ==> o.price.Some?)
    && (NeedsStopPrice(o.orderType) ==> o.stopPrice.Some?)
    && (OrderNotional(o, c.referencePrice).Some? ==>
          NotionalFits(OrderNotional(o, c.referencePrice).value, o.orderType, f))
    && RiskFits(o, f, c)
  }

  // ---------- from decimal strings to reals ----------

  function PriceValues(f: PriceFilter<Dec>): PriceFilter<real> {
    PriceFilter(ValueOf(f.minPrice), ValueOf(f.maxPrice), ValueOf(f.tickSize))
  }

  function QuantityValues(f: QuantityFilter<Dec>): QuantityFilter<real> {
    QuantityFilter(f.filterType, ValueOf(f.minQty), ValueOf(f.maxQty), ValueOf(f.stepSize))
  }

  function LotValues(f: Option<QuantityFilter<Dec>>): Option<QuantityFilter<real>> {
    if f.None? then None else Some(QuantityValues(f.value))
  }

  function MinNotionalValues(f: Option<MinNotional<Dec>>): Option<MinNotional<real>> {
    if f.None? then None else Some(MinNotional(Value(f.value.minNotional), f.value.applyToMarket))
  }

  function NotionalValues(f: Option<Notional<Dec>>): Option<Notional<real>> {
    if f.None? then None
    else
      Some(Notional(ValueOf(f.value.minNotional), ValueOf(f.value.maxNotional),
                    f.value.applyMinToMarket, f.value.applyMaxToMarket))
  }

  function FilterValues(f: Filters<Dec>): Filters<real> {
    Filters(f.symbol, f.baseAsset, f.quoteAsset, PriceValues(f.priceFilter), LotValues(f.lotSize),
            LotValues(f.marketLotSize), MinNotionalValues(f.minNotional), NotionalValues(f.notional),
            f.maxNumOrders, f.maxNumAlgoOrders, ValueOf(f.maxPosition))
  }

  function OrderValues(o: Order<Dec>): Order<real> {
    Order(o.symbol, o.side, o.orderType,
          ValueOf(o.quantity), ValueOf(o.quoteOrderQty), ValueOf(o.price), ValueOf(o.stopPrice))
  }

  function ContextValues(c: Context<Dec>): Context<real> {
    Context(ValueOf(c.referencePrice), c.openOrderCount, c.openAlgoOrderCount, ValueOf(c.position))
  }

  lemma {:induction false} FilterMeans(f: RawFilter)
    ensures LotValues(NormalizeLot(f, ReadPositive)) == NormalizeLot(f, PositiveMeaning)
    ensures LotValues(NormalizeMarketLot(Some(f), ReadPositive)) == NormalizeMarketLot(Some(f), PositiveMeaning)
    ensures MinNotionalValues(NormalizeMinNotional(f, ReadPositive)) == NormalizeMinNotional(f, PositiveMeaning)
    ensures NotionalValues(NormalizeNotional(f, ReadPositive)) == NormalizeNotional(f, PositiveMeaning)
    ensures PriceValues(NormalizePriceFilter(f, ReadPositive)) == NormalizePriceFilter(f, PositiveMeaning)
  {
    hide Value, ReadPositive, PositiveMeaning, Canonical;
    ReadersMean();
  }

  lemma ReadersMean()
    ensures forall v :: ValueOf(ReadPositive(v)) == PositiveMeaning(v)
    ensures forall v :: ValueOf(ReadNonNegative(v)) == Meaning(v)
  {
    forall v
      ensures ValueOf(ReadPositive(v)) == PositiveMeaning(v) && ValueOf(ReadNonNegative(v)) == Meaning(v)
    {
      ReadPositiveMeans(v);
    }
  }

  lemma {:induction false} OptionalFilterMeans(f: Option<RawFilter>)
    ensures LotValues(NormalizeMarketLot(f, ReadPositive)) == NormalizeMarketLot(f, PositiveMeaning)
    ensures ValueOf(ReadMaxPosition(f, ReadPositive)) == ReadMaxPosition(f, PositiveMeaning)
  {
    ReadersMean();
    hide ReadPositive, PositiveMeaning, Value;
    if f.Some? {
      FilterMeans(f.value);
    }
  }

  lemma {:induction false} FiltersRead(info: SymbolInfo)
    ensures FilterValues(NormalizeFilters(info, ReadPositive)) == NormalizeFilters(info, PositiveMeaning)
  {
    hide NormalizeLot, NormalizeMarketLot, NormalizeMinNotional, NormalizeNotional, NormalizePriceFilter, PriceValues;
    hide LotValues, MinNotionalValues, NotionalValues, ValueOf, ReadPositive, PositiveMeaning, Choose, TokenOrNone;
    hide NormalizeInteger, ReadMaxPosition;
    var chosen := Choose(info);
    FilterMeans(chosen.price);
    FilterMeans(chosen.lot);
    OptionalFilterMeans(chosen.marketLot);
    FilterMeans(chosen.minNotional);
    FilterMeans(chosen.notional);
    OptionalFilterMeans(chosen.position);
  }

  lemma {:induction false} NormalizingMeans(order: RawOrder, info: SymbolInfo, context: RawContext)
    ensures OrderValues(NormalizeOrder(order, ReadPositive)) == NormalizeOrder(order, PositiveMeaning)
    ensures FilterValues(NormalizeFilters(info, ReadPositive)) == NormalizeFilters(info, PositiveMeaning)
    ensures ContextValues(NormalizeContext(context, ReadPositive, ReadNonNegative)) ==
            NormalizeContext(context, PositiveMeaning, Meaning)
  {
    hide Value, Meaning, Canonical, ReadPositive, ReadNonNegative, PositiveMeaning, ValueOf, Alias, TextOf, Upper;
    hide FilterValues, NormalizeFilters;
    ReadersMean();
    FiltersRead(info);
  }

  // ---------- one group of rules at a time ----------

  lemma BoundsMean(d: Dec, bound: Option<Dec>)
    ensures Under(d, bound) <==> bound.Some? && Value(d) < ValueOf(bound).value
    ensures Over(d, bound) <==> bound.Some? && Value(d) > ValueOf(bound).value
    ensures OffStep(d, bound) <==> bound.Some? && !MultipleOf(Value(d), ValueOf(bound).value)
  {
  }

  lemma LotDecides(e: Errors, o: Order<Dec>, f: Filters<Dec>)
    ensures LotErrors(e, o, f) == [] <==> e == [] && LotFits(OrderValues(o), FilterValues(f))
  {
    hide Value, Canonical, Under, Over, OffStep, MultipleOf;
    var lot := SelectQuantityFilter(o.orderType, f);
    if o.quantity.Some? && lot.Some? {
      BoundsMean(o.quantity.value, lot.value.minQty);
      BoundsMean(o.quantity.value, lot.value.maxQty);
      BoundsMean(o.quantity.value, lot.value.stepSize);
    }
  }

  lemma PriceDecides(e: Errors, field: string, f: PriceFilter<Dec>, price: Option<Dec>)
    ensures OptionalPriceErrors(e, field, f, price) == [] <==> e == [] && PriceFits(ValueOf(price), PriceValues(f))
  {
    hide Value, Canonical, Under, Over, OffStep, MultipleOf;
    if price.Some? {
      BoundsMean(price.value, f.minPrice);
      BoundsMean(price.value, f.maxPrice);
      BoundsMean(price.value, f.tickSize);
    }
  }

  lemma ValueOfSome(d: Dec)
    ensures ValueOf(Some(d)) == Some(Value(d))
  {
  }

  lemma {:induction false} ProductMeans(quantity: Dec, price: Dec)
    ensures ValueOf(Some(Multiply(quantity, price))) == Some(Cost(Value(quantity), Value(price)))
  {
    hide Value, ValueOf, Multiply;
    ValueOfSome(Multiply(quantity, price));
    MultiplyIsExact(quantity, price);
    var m := Multiply(quantity, price);
    assert Value(m) == Cost(Value(quantity), Value(price));
  }

  lemma {:induction false} NotionalMeans(o: Order<Dec>, referencePrice: Option<Dec>)
    ensures ValueOf(SelectNotional(o, referencePrice)) == OrderNotional(OrderValues(o), ValueOf(referencePrice))
  {
    hide Value, Multiply, Cost;
    var price := OrElse(OrElse(o.price, referencePrice), o.stopPrice);
    if o.quoteOrderQty.None? && o.quantity.Some? && price.Some? {
      ProductMeans(o.quantity.value, price.value);
    }
  }

  lemma {:induction false} NotionalDecides(e: Errors, o: Order<Dec>, f: Filters<Dec>, referencePrice: Option<Dec>)
    ensures var n := OrderNotional(OrderValues(o), ValueOf(referencePrice));
            NotionalErrors(e, o, f, referencePrice) == [] <==>
            e == [] && (n.Some? ==> NotionalFits(n.value, o.orderType, FilterValues(f)))
  {
    hide Value, Canonical, Under, Over, OffStep, SelectNotional, OrderNotional, OrderValues, MarketLike;
    NotionalMeans(o, referencePrice);
    var n := SelectNotional(o, referencePrice);
    if n.Some? {
      BoundsMean(n.value, MinNotionalBound(f, o.orderType));
      BoundsMean(n.value, NotionalMin(f, o.orderType));
      BoundsMean(n.value, NotionalMax(f, o.orderType));
    }
  }

  lemma {:induction false} RiskDecides(e: Errors, o: Order<Dec>, f: Filters<Dec>, c: Context<Dec>)
    ensures RiskErrors(e, o, f, c) == [] <==> e == [] && RiskFits(OrderValues(o), FilterValues(f), ContextValues(c))
  {
    hide Value, Canonical, Under, Over, OffStep, Add, NatToString;
    if c.position.Some? && o.quantity.Some? {
      AddIsExact(c.position.value, o.quantity.value);
      BoundsMean(Add(c.position.value, o.quantity.value), f.maxPosition);
    }
  }

  /** The validator answers ok exactly when what it normalised is acceptable as numbers. */
  lemma {:induction false} ValidatorAccepts(order: RawOrder, info: SymbolInfo, context: RawContext)
    ensures Validate(order, info, context).ok <==>
            Accepts(NormalizeOrder(order, PositiveMeaning), NormalizeFilters(info, PositiveMeaning),
                    NormalizeContext(context, PositiveMeaning, Meaning))
  {
    hide LotErrors, OptionalPriceErrors, NotionalErrors, RiskErrors, LotFits, PriceFits, NotionalFits, RiskFits;
    hide NormalizeOrder, NormalizeFilters, NormalizeContext, Value, NeedsPrice, NeedsStopPrice, OrderNotional;
    NormalizingMeans(order, info, context);
    var o := NormalizeOrder(order, ReadPositive);
    var f := NormalizeFilters(info, ReadPositive);
    var c := NormalizeContext(context, ReadPositive, ReadNonNegative);
    var e2 := SizingErrors(SymbolErrors([], o, f), o);
    var e3 := LotErrors(e2, o, f);
    LotDecides(e2, o, f);
    var e4 := OptionalPriceErrors(e3, "price", f.priceFilter, o.price);
    PriceDecides(e3, "price", f.priceFilter, o.price);
    var e5 := OptionalPriceErrors(e4, "stopPrice", f.priceFilter, o.stopPrice);
    PriceDecides(e4, "stopPrice", f.priceFilter, o.stopPrice);
    var e6 := RequiredPriceErrors(e5, o);
    NotionalDecides(e6, o, f, c.referencePrice);
    RiskDecides(NotionalErrors(e6, o, f, c.referencePrice), o, f, c);
  }

  // ---------- the rules on raw inputs ----------

  lemma {:induction false} TypeIs(order: RawOrder)
    ensures NormalizeOrder(order, PositiveMeaning).orderType == TypeOf(order)
  {
    MarketIsToken();
    hide Trim, Upper, PositiveMeaning;
  }

  lemma MarketIsToken()
    ensures Upper(Trim("MARKET")) == "MARKET" && Trim("") == "" && Upper("") == ""
  {
    NothingToTrim("MARKET");
    assert Upper("MARKET") == "MARKET";
  }

  lemma {:induction false} SymbolRuleIs(order: RawOrder, info: SymbolInfo)
    ensures var (o, f) := (NormalizeOrder(order, PositiveMeaning), NormalizeFilters(info, PositiveMeaning));
            SymbolRule(order, info) <==> o.symbol != "" && (f.symbol.Some? ==> o.symbol == f.symbol.value)
  {
    hide Trim, Upper, PositiveMeaning, Choose, NormalizeOrderType, NormalizeLot, NormalizeMarketLot,
        NormalizePriceFilter;
    hide NormalizeMinNotional, NormalizeNotional, ReadMaxPosition, NormalizeInteger;
  }

  /** Where each normalised filter comes from. */
  lemma FiltersPick(info: SymbolInfo)
    ensures var f := NormalizeFilters(info, PositiveMeaning);
            && f.lotSize == NormalizeLot(ByType(info.filters, "LOT_SIZE").GetOr(info.flat), PositiveMeaning)
            && f.marketLotSize == NormalizeMarketLot(ByType(info.filters, "MARKET_LOT_SIZE"), PositiveMeaning)
            && f.priceFilter ==
                 NormalizePriceFilter(ByType(info.filters, "PRICE_FILTER").GetOr(info.flat), PositiveMeaning)
            && f.minNotional ==
                 NormalizeMinNotional(ByType(info.filters, "MIN_NOTIONAL").GetOr(info.flat), PositiveMeaning)
            && f.notional == NormalizeNotional(ByType(info.filters, "NOTIONAL").GetOr(info.flat), PositiveMeaning)
            && f.maxPosition == ReadMaxPosition(ByType(info.filters, "MAX_POSITION"), PositiveMeaning)
  {
    hide ByType, NormalizeLot, NormalizeMarketLot, NormalizePriceFilter, NormalizeMinNotional, NormalizeNotional;
    hide ReadMaxPosition, NormalizeInteger, TokenOrNone, PositiveMeaning;
  }

  lemma CountsPick(info: SymbolInfo)
    ensures var (f, orders, algos) := (NormalizeFilters(info, PositiveMeaning), ByType(info.filters, "MAX_NUM_ORDERS"),
                ByType(info.filters, "MAX_NUM_ALGO_ORDERS"));
            && f.maxNumOrders == (if orders.None? then None else NormalizeInteger(orders.value.maxNumOrders))
            && f.maxNumAlgoOrders == (if algos.None? then None else NormalizeInteger(algos.value.maxNumAlgoOrders))
  {
    hide ByType, NormalizeLot, NormalizeMarketLot, NormalizePriceFilter, NormalizeMinNotional, NormalizeNotional;
    hide ReadMaxPosition, NormalizeInteger, TokenOrNone, PositiveMeaning;
  }

  lemma OrderReads(order: RawOrder)
    ensures var o := NormalizeOrder(order, PositiveMeaning);
            && o.quantity == PositiveMeaning(order.quantity) && o.quoteOrderQty == PositiveMeaning(order.quoteOrderQty)
            && o.price == PositiveMeaning(order.price) && o.stopPrice == PositiveMeaning(order.stopPrice)
            && o.side == Upper(Trim(order.side.GetOr("")))
  {
    hide PositiveMeaning, Trim, Upper, NormalizeOrderType;
  }

  /** The filter that bounds the order's quantity. */
  function LotUsed(order: RawOrder, info: SymbolInfo): RawFilter {
    var market := ByType(info.filters, "MARKET_LOT_SIZE");
    if TypeOf(order) == "MARKET" && market.Some? && BoundsQuantity(market.value) then market.value
    else ByType(info.filters, "LOT_SIZE").GetOr(info.flat)
  }

  lemma {:induction false} LotUsedIs(order: RawOrder, info: SymbolInfo, f: RawFilter)
    ensures LotInForce(order, info, f) <==> f == LotUsed(order, info)
  {
    hide ByType, BoundsQuantity, TypeOf, Listed, InForce;
    ListedIs(info, "MARKET_LOT_SIZE", f);
    ListedIs(info, "LOT_SIZE", f);
    if ByType(info.filters, "MARKET_LOT_SIZE").Some? {
      ListedIs(info, "MARKET_LOT_SIZE", ByType(info.filters, "MARKET_LOT_SIZE").value);
    }
    if TypeOf(order) == "MARKET" && exists g :: Listed(info, "MARKET_LOT_SIZE", g) && BoundsQuantity(g) {
      var g :| Listed(info, "MARKET_LOT_SIZE", g) && BoundsQuantity(g);
      ListedIs(info, "MARKET_LOT_SIZE", g);
    }
  }

  lemma {:induction false} LotRuleUses(order: RawOrder, info: SymbolInfo)
    ensures var (used, quantity) := (LotUsed(order, info), PositiveMeaning(order.quantity));
            LotRule(order, info) <==>
            (quantity.Some? ==> Within(quantity.value, used.minQty, used.maxQty, used.stepSize))
  {
    var used := LotUsed(order, info);
    LotUsedIs(order, info, used);
    hide PositiveMeaning, MultipleOf, LotInForce, LotUsed, Within;
    forall f | LotInForce(order, info, f)
      ensures f == used
    {
      LotUsedIs(order, info, f);
    }
  }

  /** A quantity is within a normalised filter's bounds exactly if it is within the raw one's. */
  lemma {:induction false} QuantityFits(x: real, f: RawFilter, filterType: string)
    ensures var out := NormalizeQuantityFilter(f, filterType, PositiveMeaning);
            && (out.Some? <==> BoundsQuantity(f))
            && (Within(x, f.minQty, f.maxQty, f.stepSize) <==>
                (out.Some? ==> Fits(x, out.value.minQty, out.value.maxQty, out.value.stepSize)))
  {
    hide PositiveMeaning, MultipleOf;
  }

  lemma {:induction false} LotRuleIs(order: RawOrder, info: SymbolInfo)
    ensures var (o, f) := (NormalizeOrder(order, PositiveMeaning), NormalizeFilters(info, PositiveMeaning));
            LotRule(order, info) <==> LotFits(o, f)
  {
    LotRuleUses(order, info);
    var (lot, market) := (ByType(info.filters, "LOT_SIZE").GetOr(info.flat), ByType(info.filters, "MARKET_LOT_SIZE"));
    var quantity := PositiveMeaning(order.quantity);
    TypeIs(order);
    OrderReads(order);
    FiltersPick(info);
    hide PositiveMeaning, ByType, TypeOf, NormalizeOrder, NormalizeFilters, LotRule, Within, Fits, BoundsQuantity;
    hide NormalizeQuantityFilter;
    if quantity.Some? {
      QuantityFits(quantity.value, lot, "LOT_SIZE");
      if market.Some? {
        QuantityFits(quantity.value, market.value, "MARKET_LOT_SIZE");
      }
    }
  }

  lemma {:induction false} PriceRuleIs(text: Option<string>, info: SymbolInfo)
    ensures PriceRule(text, info) <==>
            PriceFits(PositiveMeaning(text), NormalizeFilters(info, PositiveMeaning).priceFilter)
  {
    var f := ByType(info.filters, "PRICE_FILTER").GetOr(info.flat);
    forall g
      ensures InForce(info, "PRICE_FILTER", g) <==> g == f
    {
      ListedIs(info, "PRICE_FILTER", g);
    }
    hide Listed, InForce, PositiveMeaning, ByType, MultipleOf, NormalizeLot, NormalizeMarketLot;
    hide NormalizeMinNotional, NormalizeNotional, ReadMaxPosition, NormalizeInteger, TokenOrNone;
  }

  lemma {:induction false} ReferenceReads(context: RawContext)
    ensures var c := NormalizeContext(context, PositiveMeaning, Meaning);
            && c.referencePrice == PositiveMeaning(ReferenceOf(context))
            && c.openOrderCount == context.openOrderCount && c.openAlgoOrderCount == context.openAlgoOrderCount
            && c.position == Meaning(context.baseAssetPositionQuantity)
  {
    ReadsNothing();
    hide PositiveMeaning, Meaning;
  }

  lemma ReadsNothing()
    ensures PositiveMeaning(None) == None && PositiveMeaning(Some("")) == None
  {
    EmptyIsNoNumber();
  }

  lemma EmptyIsNoNumber()
    ensures Meaning(Some("")) == None
  {
    MarketIsToken();
    hide Trim;
  }

  lemma {:induction false} NotionalIs(order: RawOrder, context: RawContext)
    ensures OrderNotional(NormalizeOrder(order, PositiveMeaning),
                NormalizeContext(context, PositiveMeaning, Meaning).referencePrice) == NotionalOf(order, context)
  {
    OrderReads(order);
    ReferenceReads(context);
    hide PositiveMeaning, Meaning, NormalizeOrder, NormalizeContext, ReferenceOf, Cost;
  }

  lemma {:induction false} NotionalRuleUses(order: RawOrder, info: SymbolInfo, context: RawContext)
    ensures var (min, notional) := (ByType(info.filters, "MIN_NOTIONAL").GetOr(info.flat),
                ByType(info.filters, "NOTIONAL").GetOr(info.flat));
            NotionalRule(order, info, context) <==> NotionalWithin(order, context, min, notional)
  {
    var (min, notional) := (ByType(info.filters, "MIN_NOTIONAL").GetOr(info.flat),
        ByType(info.filters, "NOTIONAL").GetOr(info.flat));
    ListedIs(info, "MIN_NOTIONAL", min);
    ListedIs(info, "NOTIONAL", notional);
    hide InForce, PositiveMeaning, ByType, TypeOf, NotionalOf;
    forall f
      ensures InForce(info, "MIN_NOTIONAL", f) ==> f == min
      ensures InForce(info, "NOTIONAL", f) ==> f == notional
    {
      ListedIs(info, "MIN_NOTIONAL", f);
      ListedIs(info, "NOTIONAL", f);
    }
  }

  predicate NotionalWithin(order: RawOrder, context: RawContext, min: RawFilter, notional: RawFilter) {
    var n := NotionalOf(order, context);
    var marketLike := TypeOf(order) in ["MARKET", "STOP_LOSS", "TAKE_PROFIT"];
    var (lowest, low, high) := (PositiveMeaning(min.minNotional), PositiveMeaning(notional.minNotional),
        PositiveMeaning(notional.maxNotional));
    n.Some? ==>
      && (lowest.Some? && (!marketLike || min.applyToMarket) ==> lowest.value <= n.value)
      && (low.Some? && (!marketLike || notional.applyMinToMarket) ==> low.value <= n.value)
      && (high.Some? && (!marketLike || notional.applyMaxToMarket) ==> n.value <= high.value)
  }

  lemma {:induction false} NotionalRuleIs(order: RawOrder, info: SymbolInfo, context: RawContext)
    ensures var n := NotionalOf(order, context);
            NotionalRule(order, info, context) <==>
            (n.Some? ==> NotionalFits(n.value, TypeOf(order), NormalizeFilters(info, PositiveMeaning)))
  {
    FiltersPick(info);
    NotionalRuleUses(order, info, context);
    hide PositiveMeaning, ByType, TypeOf, NormalizeFilters, NotionalOf, NotionalRule;
  }

  lemma {:induction false} RiskRuleUses(order: RawOrder, info: SymbolInfo, context: RawContext)
    ensures var (orders, algos, position) := (ByType(info.filters, "MAX_NUM_ORDERS"),
                ByType(info.filters, "MAX_NUM_ALGO_ORDERS"), ByType(info.filters, "MAX_POSITION"));
            RiskRule(order, info, context) <==>
            && (orders.Some? ==> CountRule(context.openOrderCount, orders.value.maxNumOrders))
            && (algos.Some? ==> CountRule(context.openAlgoOrderCount, algos.value.maxNumAlgoOrders))
            && (position.Some? ==> PositionRule(order, context, position.value))
  {
    hide PositiveMeaning, ByType, CountRule, PositionRule, Listed;
    var (orders, algos, position) := (ByType(info.filters, "MAX_NUM_ORDERS"),
        ByType(info.filters, "MAX_NUM_ALGO_ORDERS"), ByType(info.filters, "MAX_POSITION"));
    if orders.Some? {
      ListedIs(info, "MAX_NUM_ORDERS", orders.value);
    }
    if algos.Some? {
      ListedIs(info, "MAX_NUM_ALGO_ORDERS", algos.value);
    }
    if position.Some? {
      ListedIs(info, "MAX_POSITION", position.value);
    }
    forall f
      ensures Listed(info, "MAX_NUM_ORDERS", f) ==> orders == Some(f)
      ensures Listed(info, "MAX_NUM_ALGO_ORDERS", f) ==> algos == Some(f)
      ensures Listed(info, "MAX_POSITION", f) ==> position == Some(f)
    {
      ListedIs(info, "MAX_NUM_ORDERS", f);
      ListedIs(info, "MAX_NUM_ALGO_ORDERS", f);
      ListedIs(info, "MAX_POSITION", f);
    }
  }

  lemma {:induction false} RiskRuleIs(order: RawOrder, info: SymbolInfo, context: RawContext)
    ensures RiskRule(order, info, context) <==>
            RiskFits(NormalizeOrder(order, PositiveMeaning), NormalizeFilters(info, PositiveMeaning),
                     NormalizeContext(context, PositiveMeaning, Meaning))
  {
    OrderReads(order);
    ReferenceReads(context);
    FiltersPick(info);
    CountsPick(info);
    RiskRuleUses(order, info, context);
    hide PositiveMeaning, ByType, Meaning, NormalizeFilters, NormalizeOrder, NormalizeContext, Upper, Trim, RiskRule;
    CountRuleIs(context.openOrderCount, ByType(info.filters, "MAX_NUM_ORDERS"));
    CountRuleIs(context.openAlgoOrderCount, ByType(info.filters, "MAX_NUM_ALGO_ORDERS"));
    hide CountRule, NormalizeInteger;
  }

  lemma CountRuleIs(count: Option<real>, f: Option<RawFilter>)
    ensures f.Some? ==>
              var (orders, algos) := (NormalizeInteger(f.value.maxNumOrders),
                  NormalizeInteger(f.value.maxNumAlgoOrders));
              && (CountRule(count, f.value.maxNumOrders) <==>
                  (orders.Some? && count.Some? ==> count.value < orders.value as real))
              && (CountRule(count, f.value.maxNumAlgoOrders) <==>
                  (algos.Some? && count.Some? ==> count.value < algos.value as real))
  {
  }

  // What the normalised filters say, field by field, of the filters in force.

  lemma {:induction false} PriceFilterMeans(info: SymbolInfo, f: RawFilter)
    requires InForce(info, "PRICE_FILTER", f)
    ensures var out := NormalizeFilters(info, ReadPositive).priceFilter;
            && ValueOf(out.minPrice) == PositiveMeaning(f.minPrice)
            && ValueOf(out.maxPrice) == PositiveMeaning(f.maxPrice)
            && ValueOf(out.tickSize) == PositiveMeaning(f.tickSize)
  {
    ListedIs(info, "PRICE_FILTER", f);
    FiltersRead(info);
    FiltersPick(info);
    hide InForce, Listed, ByType, NormalizeFilters, ValueOf, PositiveMeaning;
  }

  lemma {:induction false} LotFilterMeans(info: SymbolInfo, f: RawFilter)
    requires InForce(info, "LOT_SIZE", f)
    ensures var out := NormalizeFilters(info, ReadPositive).lotSize;
            && (out.Some? <==> BoundsQuantity(f))
            && (out.Some? ==> ReadsQuantity(out.value, f, "LOT_SIZE"))
  {
    ListedIs(info, "LOT_SIZE", f);
    FiltersRead(info);
    FiltersPick(info);
    hide InForce, Listed, ByType, NormalizeFilters, ValueOf, PositiveMeaning;
  }

  /** The normalised filter has the raw one's own bounds, each in its place. */
  ghost predicate ReadsQuantity(out: QuantityFilter<Dec>, f: RawFilter, filterType: string) {
    && out.filterType == filterType && ValueOf(out.minQty) == PositiveMeaning(f.minQty)
    && ValueOf(out.maxQty) == PositiveMeaning(f.maxQty) && ValueOf(out.stepSize) == PositiveMeaning(f.stepSize)
  }

  lemma {:induction false} MarketLotFilterMeans(info: SymbolInfo, f: RawFilter)
    ensures var out := NormalizeFilters(info, ReadPositive).marketLotSize;
            && (Listed(info, "MARKET_LOT_SIZE", f) ==> (out.Some? <==> BoundsQuantity(f)))
            && (Listed(info, "MARKET_LOT_SIZE", f) && out.Some? ==> ReadsQuantity(out.value, f, "MARKET_LOT_SIZE"))
            && (out.Some? ==> exists g :: Listed(info, "MARKET_LOT_SIZE", g))
  {
    var market := ByType(info.filters, "MARKET_LOT_SIZE");
    ListedIs(info, "MARKET_LOT_SIZE", f);
    FiltersRead(info);
    FiltersPick(info);
    hide InForce, Listed, ByType, NormalizeFilters, ValueOf, PositiveMeaning, BoundsQuantity, NormalizeQuantityFilter;
    if market.Some? {
      ListedIs(info, "MARKET_LOT_SIZE", market.value);
      QuantityReads(market.value, "MARKET_LOT_SIZE");
    }
  }

  /** A normalised quantity filter is there exactly if the raw one bounds anything, and has its bounds. */
  lemma QuantityReads(f: RawFilter, filterType: string)
    ensures var out := NormalizeQuantityFilter(f, filterType, PositiveMeaning);
            && (out.Some? <==> BoundsQuantity(f))
            && (out.Some? ==>
                  out.value == QuantityFilter(filterType, PositiveMeaning(f.minQty), PositiveMeaning(f.maxQty),
                                              PositiveMeaning(f.stepSize)))
  {
    hide PositiveMeaning;
  }

  lemma {:induction false} NotionalFiltersMean(info: SymbolInfo, f: RawFilter)
    ensures var out := NormalizeFilters(info, ReadPositive).minNotional;
            InForce(info, "MIN_NOTIONAL", f) ==>
              && (if out.None? then None else Some(Value(out.value.minNotional))) == PositiveMeaning(f.minNotional)
              && (out.Some? ==> out.value.applyToMarket == f.applyToMarket)
    ensures var out := NormalizeFilters(info, ReadPositive).notional;
            InForce(info, "NOTIONAL", f) ==>
              && (out.Some? <==> PositiveMeaning(f.minNotional).Some? || PositiveMeaning(f.maxNotional).Some?)
              && (out.Some? ==>
                    && ValueOf(out.value.minNotional) == PositiveMeaning(f.minNotional)
                    && ValueOf(out.value.maxNotional) == PositiveMeaning(f.maxNotional)
                    && out.value.applyMinToMarket == f.applyMinToMarket
                    && out.value.applyMaxToMarket == f.applyMaxToMarket)
  {
    ListedIs(info, "MIN_NOTIONAL", f);
    ListedIs(info, "NOTIONAL", f);
    FiltersRead(info);
    FiltersPick(info);
    hide InForce, Listed, ByType, NormalizeFilters, ValueOf, PositiveMeaning, Value;
  }

  lemma {:induction false} LimitsMean(info: SymbolInfo, f: RawFilter)
    ensures var out := NormalizeFilters(info, ReadPositive);
            && (Listed(info, "MAX_NUM_ORDERS", f) ==> ReadsLimit(out.maxNumOrders, f.maxNumOrders))
            && (Listed(info, "MAX_NUM_ALGO_ORDERS", f) ==> ReadsLimit(out.maxNumAlgoOrders, f.maxNumAlgoOrders))
            && (Listed(info, "MAX_POSITION", f) ==> ValueOf(out.maxPosition) == PositiveMeaning(f.maxPosition))
  {
    ListedIs(info, "MAX_NUM_ORDERS", f);
    ListedIs(info, "MAX_NUM_ALGO_ORDERS", f);
    ListedIs(info, "MAX_POSITION", f);
    FiltersRead(info);
    FiltersPick(info);
    CountsPick(info);
    hide InForce, Listed, ByType, NormalizeFilters, ValueOf, PositiveMeaning, Value;
  }

  /** A limit is kept if it is a positive integer. */
  predicate ReadsLimit(out: Option<nat>, raw: Option<real>) {
    && (out.Some? <==> raw.Some? && raw.value > 0.0 && raw.value == raw.value.Floor as real)
    && (out.Some? ==> out.value as real == raw.value)
  }

  /** The normalised filters denote the numbers of the listed ones in force, each bound in its own place. */
  lemma {:induction false} FiltersMean(info: SymbolInfo)
    ensures var out := NormalizeFilters(info, ReadPositive);
            && (forall f :: InForce(info, "PRICE_FILTER", f) ==>
                  && ValueOf(out.priceFilter.minPrice) == PositiveMeaning(f.minPrice)
                  && ValueOf(out.priceFilter.maxPrice) == PositiveMeaning(f.maxPrice)
                  && ValueOf(out.priceFilter.tickSize) == PositiveMeaning(f.tickSize))
            && (forall f :: InForce(info, "LOT_SIZE", f) ==>
                  && (out.lotSize.Some? <==> BoundsQuantity(f))
                  && (out.lotSize.Some? ==> ReadsQuantity(out.lotSize.value, f, "LOT_SIZE")))
            && (forall f :: Listed(info, "MARKET_LOT_SIZE", f) ==>
                  && (out.marketLotSize.Some? <==> BoundsQuantity(f))
                  && (out.marketLotSize.Some? ==> ReadsQuantity(out.marketLotSize.value, f, "MARKET_LOT_SIZE")))
            && (forall f :: InForce(info, "MIN_NOTIONAL", f) ==>
                  && (out.minNotional.Some? <==> PositiveMeaning(f.minNotional).Some?)
                  && (out.minNotional.Some? ==>
                        && Some(Value(out.minNotional.value.minNotional)) == PositiveMeaning(f.minNotional)
                        && out.minNotional.value.applyToMarket == f.applyToMarket))
            && (forall f :: InForce(info, "NOTIONAL", f) && out.notional.Some? ==>
                  && ValueOf(out.notional.value.minNotional) == PositiveMeaning(f.minNotional)
                  && ValueOf(out.notional.value.maxNotional) == PositiveMeaning(f.maxNotional)
                  && out.notional.value.applyMinToMarket == f.applyMinToMarket
                  && out.notional.value.applyMaxToMarket == f.applyMaxToMarket)
            && (forall f :: Listed(info, "MAX_NUM_ORDERS", f) ==> ReadsLimit(out.maxNumOrders, f.maxNumOrders))
            && (forall f :: Listed(info, "MAX_NUM_ALGO_ORDERS", f) ==>
                  ReadsLimit(out.maxNumAlgoOrders, f.maxNumAlgoOrders))
            && (forall f :: Listed(info, "MAX_POSITION", f) ==>
                  ValueOf(out.maxPosition) == PositiveMeaning(f.maxPosition))
  {
    hide InForce, Listed, ByType, NormalizeFilters, ValueOf, PositiveMeaning, Value, ReadsLimit, ReadsQuantity,
        BoundsQuantity;
    forall f | InForce(info, "PRICE_FILTER", f) {
      PriceFilterMeans(info, f);
    }
    forall f | InForce(info, "LOT_SIZE", f) {
      LotFilterMeans(info, f);
    }
    forall f | Listed(info, "MARKET_LOT_SIZE", f) {
      MarketLotFilterMeans(info, f);
    }
    forall f | InForce(info, "MIN_NOTIONAL", f) || InForce(info, "NOTIONAL", f) {
      NotionalFiltersMean(info, f);
    }
    forall f
      ensures Listed(info, "MAX_NUM_ORDERS", f) ==>
                ReadsLimit(NormalizeFilters(info, ReadPositive).maxNumOrders, f.maxNumOrders)
      ensures Listed(info, "MAX_NUM_ALGO_ORDERS", f) ==>
                ReadsLimit(NormalizeFilters(info, ReadPositive).maxNumAlgoOrders, f.maxNumAlgoOrders)
      ensures Listed(info, "MAX_POSITION", f) ==>
                ValueOf(NormalizeFilters(info, ReadPositive).maxPosition) == PositiveMeaning(f.maxPosition)
    {
      LimitsMean(info, f);
    }
  }

  /**
    The validator answers ok exactly when the order meets the rules, stated on the raw order, the
    listed filters and the context.
   */
  lemma {:induction false} ValidatorDecides(order: RawOrder, info: SymbolInfo, context: RawContext)
    ensures Validate(order, info, context).ok <==> Acceptable(order, info, context)
  {
    hide Validate, LotFits, PriceFits, NotionalFits, RiskFits, NormalizeFilters, NormalizeContext, OrderNotional;
    hide SymbolRule, LotRule, PriceRule, NotionalRule, RiskRule, PositiveMeaning, TypeOf, NotionalOf;
    OrderReads(order);
    ValidatorAccepts(order, info, context);
    TypeIs(order);
    SymbolRuleIs(order, info);
    LotRuleIs(order, info);
    PriceRuleIs(order.price, info);
    PriceRuleIs(order.stopPrice, info);
    NotionalIs(order, context);
    NotionalRuleIs(order, info, context);
    RiskRuleIs(order, info, context);
  }

  // ---------- respelling ----------

  ghost predicate SameText(a: Option<string>, b: Option<string>) {
    Upper(TextOf(a)) == Upper(TextOf(b))
  }

  /** The same number, or no number at all. */
  ghost predicate SameDecimal(a: Option<string>, b: Option<string>) {
    Meaning(a) == Meaning(b)
  }

  ghost predicate SameFilter(a: RawFilter, b: RawFilter) {
    && Upper(a.filterType.GetOr("")) == Upper(b.filterType.GetOr(""))
    && SameDecimal(a.minPrice, b.minPrice) && SameDecimal(a.maxPrice, b.maxPrice) && SameDecimal(a.tickSize, b.tickSize)
    && SameDecimal(a.minQty, b.minQty) && SameDecimal(a.maxQty, b.maxQty) && SameDecimal(a.stepSize, b.stepSize)
    && SameDecimal(a.minNotional, b.minNotional) && SameDecimal(a.maxNotional, b.maxNotional)
    && SameDecimal(a.maxPosition, b.maxPosition)
    && a.applyToMarket == b.applyToMarket
    && a.applyMinToMarket == b.applyMinToMarket && a.applyMaxToMarket == b.applyMaxToMarket
    && a.maxNumOrders == b.maxNumOrders && a.maxNumAlgoOrders == b.maxNumAlgoOrders
  }

  ghost predicate SameInfo(a: SymbolInfo, b: SymbolInfo) {
    && SameText(a.symbol, b.symbol) && SameText(a.baseAsset, b.baseAsset) && SameText(a.quoteAsset, b.quoteAsset)
    && |a.filters| == |b.filters| && (forall i :: 0 <= i < |a.filters| ==> SameFilter(a.filters[i], b.filters[i]))
    && SameFilter(a.flat, b.flat)
  }

  ghost predicate SameOrder(a: RawOrder, b: RawOrder) {
    && SameText(a.symbol, b.symbol) && SameText(a.side, b.side)
    && a.orderType == b.orderType && a.typ == b.typ
    && SameDecimal(a.quantity, b.quantity) && SameDecimal(a.quoteOrderQty, b.quoteOrderQty)
    && SameDecimal(a.price, b.price) && SameDecimal(a.stopPrice, b.stopPrice)
  }

  /** An empty reference price falls through to the next one, so respelling must not empty or fill one. */
  ghost predicate SamePrice(a: Option<string>, b: Option<string>) {
    SameDecimal(a, b) && (Truthy(a) <==> Truthy(b))
  }

  ghost predicate SameContext(a: RawContext, b: RawContext) {
    && SamePrice(a.marketReferencePrice, b.marketReferencePrice)
    && SamePrice(a.averagePrice, b.averagePrice) && SamePrice(a.lastPrice, b.lastPrice)
    && a.openOrderCount == b.openOrderCount && a.openAlgoOrderCount == b.openAlgoOrderCount
    && SameDecimal(a.baseAssetPositionQuantity, b.baseAssetPositionQuantity)
  }

  lemma {:induction false} SameByType(a: seq<RawFilter>, b: seq<RawFilter>, filterType: string)
    requires |a| == |b| && forall i :: 0 <= i < |a| ==> SameFilter(a[i], b[i])
    ensures ByType(a, filterType).Some? <==> ByType(b, filterType).Some?
    ensures ByType(a, filterType).Some? ==> SameFilter(ByType(a, filterType).value, ByType(b, filterType).value)
  {
    hide SameDecimal;
    if a != [] {
      assert SameFilter(a[|a| - 1], b[|b| - 1]);
      SameByType(a[..|a| - 1], b[..|b| - 1], filterType);
    }
  }

  ghost predicate SameOptional(a: Option<RawFilter>, b: Option<RawFilter>) {
    (a.Some? <==> b.Some?) && (a.Some? ==> SameFilter(a.value, b.value))
  }

  lemma {:induction false} SameChoice(a: SymbolInfo, b: SymbolInfo)
    requires SameInfo(a, b)
    ensures var (c, d) := (Choose(a), Choose(b));
            SameFilter(c.price, d.price) && SameFilter(c.lot, d.lot) && SameFilter(c.minNotional, d.minNotional) &&
            SameFilter(c.notional, d.notional) && SameOptional(c.marketLot, d.marketLot) &&
            SameOptional(c.numOrders, d.numOrders) && SameOptional(c.numAlgoOrders, d.numAlgoOrders) &&
            SameOptional(c.position, d.position)
  {
    hide SameFilter, ByType, Upper, TextOf;
    forall filterType
      ensures SameOptional(ByType(a.filters, filterType), ByType(b.filters, filterType))
    {
      SameByType(a.filters, b.filters, filterType);
    }
  }

  lemma {:induction false} SameFilterReadsAlike(a: RawFilter, b: RawFilter)
    requires SameFilter(a, b)
    ensures NormalizePriceFilter(a, ReadPositive) == NormalizePriceFilter(b, ReadPositive)
    ensures NormalizeLot(a, ReadPositive) == NormalizeLot(b, ReadPositive)
    ensures NormalizeMarketLot(Some(a), ReadPositive) == NormalizeMarketLot(Some(b), ReadPositive)
    ensures NormalizeMinNotional(a, ReadPositive) == NormalizeMinNotional(b, ReadPositive)
    ensures NormalizeNotional(a, ReadPositive) == NormalizeNotional(b, ReadPositive)
    ensures ReadPositive(a.maxPosition) == ReadPositive(b.maxPosition)
    ensures a.maxNumOrders == b.maxNumOrders && a.maxNumAlgoOrders == b.maxNumAlgoOrders
  {
    hide SameDecimal, ReadPositive, ReadNonNegative, Upper;
    ReadersIgnoreSpelling();
  }

  lemma {:induction false} SameOptionalReadsAlike(a: Option<RawFilter>, b: Option<RawFilter>)
    requires SameOptional(a, b)
    ensures NormalizeMarketLot(a, ReadPositive) == NormalizeMarketLot(b, ReadPositive)
    ensures ReadMaxPosition(a, ReadPositive) == ReadMaxPosition(b, ReadPositive)
    ensures a.Some? ==> a.value.maxNumOrders == b.value.maxNumOrders
    ensures a.Some? ==> a.value.maxNumAlgoOrders == b.value.maxNumAlgoOrders
  {
    if a.Some? {
      SameFilterReadsAlike(a.value, b.value);
    }
  }

  lemma {:induction false} SameFiltersNormalizeAlike(a: SymbolInfo, b: SymbolInfo)
    requires SameInfo(a, b)
    ensures NormalizeFilters(a, ReadPositive) == NormalizeFilters(b, ReadPositive)
  {
    hide NormalizeLot, NormalizeMarketLot, NormalizeMinNotional, NormalizeNotional, NormalizePriceFilter;
    hide SameFilter, ReadPositive, Choose, TextOf, Upper, NormalizeInteger;
    SameChoice(a, b);
    var (c, d) := (Choose(a), Choose(b));
    SameFilterReadsAlike(c.price, d.price);
    SameFilterReadsAlike(c.lot, d.lot);
    SameFilterReadsAlike(c.minNotional, d.minNotional);
    SameFilterReadsAlike(c.notional, d.notional);
    SameOptionalReadsAlike(c.marketLot, d.marketLot);
    SameOptionalReadsAlike(c.numOrders, d.numOrders);
    SameOptionalReadsAlike(c.numAlgoOrders, d.numAlgoOrders);
    SameOptionalReadsAlike(c.position, d.position);
  }

  lemma {:induction false} ReadersIgnoreSpelling()
    ensures forall a, b :: SameDecimal(a, b) ==> ReadPositive(a) == ReadPositive(b)
    ensures forall a, b :: SameDecimal(a, b) ==> ReadNonNegative(a) == ReadNonNegative(b)
  {
    forall a, b | SameDecimal(a, b)
      ensures ReadPositive(a) == ReadPositive(b) && ReadNonNegative(a) == ReadNonNegative(b)
    {
      RespellingReadsPositiveAlike(a, b);
    }
  }

  /** The whole answer - verdict, error list with its wording, normalised filters - ignores spelling. */
  lemma {:induction false} RespellingChangesNothing(
    order: RawOrder, order': RawOrder, info: SymbolInfo, info': SymbolInfo, context: RawContext, context': RawContext)
    requires SameOrder(order, order') && SameInfo(info, info') && SameContext(context, context')
    ensures Validate(order, info, context) == Validate(order', info', context')
  {
    hide FilterErrors, NormalizeFilters, SameInfo, SameDecimal, ReadPositive, ReadNonNegative, TextOf;
    SameFiltersNormalizeAlike(info, info');
    ReadersIgnoreSpelling();
    assert NormalizeOrder(order, ReadPositive) == NormalizeOrder(order', ReadPositive);
    assert NormalizeContext(context, ReadPositive, ReadNonNegative) ==
           NormalizeContext(context', ReadPositive, ReadNonNegative);
  }
}
