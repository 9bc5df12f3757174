/**
  The rules an order has to meet, stated on what the caller passes in: the raw texts of the order,
  the filters as the exchange lists them, and the context. Texts count as the numbers they spell.
 */
module FilterRules {
  import opened Wrappers
  import opened Text
  import opened Decimal
  import opened ExchangeFilters

  // ---------- the filter in force ----------

  predicate IsType(f: RawFilter, filterType: string) {
    Upper(f.filterType.GetOr("")) == filterType
  }

  /** The last listed filter of a type. */
  ghost predicate Listed(info: SymbolInfo, filterType: string, f: RawFilter) {
    exists i :: 0 <= i < |info.filters| && info.filters[i] == f && IsType(f, filterType) &&
                forall j :: i < j < |info.filters| ==> !IsType(info.filters[j], filterType)
  }

  /** The same, or the symbol object itself if no filter of the type is listed. */
  ghost predicate InForce(info: SymbolInfo, filterType: string, f: RawFilter) {
    || Listed(info, filterType, f)
    || (f == info.flat && forall j :: 0 <= j < |info.filters| ==> !IsType(info.filters[j], filterType))
  }

  // ---------- the rules ----------

  ghost predicate Within(x: real, min: Option<string>, max: Option<string>, step: Option<string>) {
    && (PositiveMeaning(min).Some? ==> PositiveMeaning(min).value <= x)
    && (PositiveMeaning(max).Some? ==> x <= PositiveMeaning(max).value)
    && (PositiveMeaning(step).Some? ==> MultipleOf(x, PositiveMeaning(step).value))
  }

  /** The order's type: `orderType` or else `type`, in upper case, a market order if both are blank. */
  function TypeOf(order: RawOrder): string {
    var given := if order.orderType.GetOr("") != "" then order.orderType.value
                 else if order.typ.GetOr("") != "" then order.typ.value
                 else "MARKET";
    var name := Upper(Trim(given));
    if name == "" then "MARKET" else if name == "STOP_MARKET" then "STOP_LOSS" else name
  }

  ghost predicate SymbolRule(order: RawOrder, info: SymbolInfo) {
    var (mine, listed) := (Upper(Trim(order.symbol.GetOr(""))), Upper(Trim(info.symbol.GetOr(""))));
    mine != "" && (listed != "" ==> mine == listed)
  }

  /** Exactly one size, and a quote amount only for market orders. */
  ghost predicate SizeRule(order: RawOrder) {
    && (PositiveMeaning(order.quantity).Some? <==> PositiveMeaning(order.quoteOrderQty).None?)
    && (PositiveMeaning(order.quoteOrderQty).Some? ==> TypeOf(order) == "MARKET")
  }

  predicate BoundsQuantity(f: RawFilter) {
    PositiveMeaning(f.minQty).Some? || PositiveMeaning(f.maxQty).Some? || PositiveMeaning(f.stepSize).Some?
  }

  /** The filter of quantities: for market orders their own one, if it bounds anything. */
  ghost predicate LotInForce(order: RawOrder, info: SymbolInfo, f: RawFilter) {
    if TypeOf(order) == "MARKET" && exists g :: Listed(info, "MARKET_LOT_SIZE", g) && BoundsQuantity(g)
    then Listed(info, "MARKET_LOT_SIZE", f)
    else InForce(info, "LOT_SIZE", f)
  }

  ghost predicate LotRule(order: RawOrder, info: SymbolInfo) {
    var quantity := PositiveMeaning(order.quantity);
    quantity.Some? ==>
      forall f :: LotInForce(order, info, f) ==> Within(quantity.value, f.minQty, f.maxQty, f.stepSize)
  }

  ghost predicate PriceRule(text: Option<string>, info: SymbolInfo) {
    var price := PositiveMeaning(text);
    price.Some? ==>
      forall f :: InForce(info, "PRICE_FILTER", f) ==> Within(price.value, f.minPrice, f.maxPrice, f.tickSize)
  }

  ghost predicate RequiredRule(order: RawOrder) {
    && (TypeOf(order) in ["LIMIT", "STOP_LOSS_LIMIT", "TAKE_PROFIT_LIMIT", "LIMIT_MAKER"] ==>
          PositiveMeaning(order.price).Some?)
    && (TypeOf(order) in ["STOP_LOSS", "STOP_LOSS_LIMIT", "TAKE_PROFIT", "TAKE_PROFIT_LIMIT"] ==>
          PositiveMeaning(order.stopPrice).Some?)
  }

  /** The first reference price that is given at all. */
  function ReferenceOf(context: RawContext): Option<string> {
    if context.marketReferencePrice.GetOr("") != "" then context.marketReferencePrice
    else if context.averagePrice.GetOr("") != "" then context.averagePrice
    else context.lastPrice
  }

  function Cost(quantity: real, price: real): real {
    quantity * price
  }

  /** The quote amount itself, or quantity times the first known of price, reference price and stop price. */
  function NotionalOf(order: RawOrder, context: RawContext): Option<real> {
    var (quantity, quote) := (PositiveMeaning(order.quantity), PositiveMeaning(order.quoteOrderQty));
    if quote.Some? then quote
    else if quantity.None? then None
    else if PositiveMeaning(order.price).Some? then Some(Cost(quantity.value, PositiveMeaning(order.price).value))
    else if PositiveMeaning(ReferenceOf(context)).Some?
    then Some(Cost(quantity.value, PositiveMeaning(ReferenceOf(context)).value))
    else if PositiveMeaning(order.stopPrice).Some?
    then Some(Cost(quantity.value, PositiveMeaning(order.stopPrice).value))
    else None
  }

  /** Bounds on the notional hold for market-like orders only if the filter says so. */
  ghost predicate NotionalRule(order: RawOrder, info: SymbolInfo, context: RawContext) {
    var n := NotionalOf(order, context);
    var marketLike := TypeOf(order) in ["MARKET", "STOP_LOSS", "TAKE_PROFIT"];
    n.Some? ==>
      && (forall f :: InForce(info, "MIN_NOTIONAL", f) ==>
            var min := PositiveMeaning(f.minNotional);
            min.Some? && (!marketLike || f.applyToMarket) ==> min.value <= n.value)
      && (forall f :: InForce(info, "NOTIONAL", f) ==>
            var (min, max) := (PositiveMeaning(f.minNotional), PositiveMeaning(f.maxNotional));
            && (min.Some? && (!marketLike || f.applyMinToMarket) ==> min.value <= n.value)
            && (max.Some? && (!marketLike || f.applyMaxToMarket) ==> n.value <= max.value))
  }

  /** A limit on counts is a positive integer; anything else limits nothing. */
  ghost predicate CountRule(count: Option<real>, limit: Option<real>) {
    count.Some? && limit.Some? && limit.value > 0.0 && limit.value == limit.value.Floor as real ==>
      count.value < limit.value
  }

  /** A buy must not take the position over the limit. */
  predicate PositionRule(order: RawOrder, context: RawContext, f: RawFilter) {
    var (max, quantity) := (PositiveMeaning(f.maxPosition), PositiveMeaning(order.quantity));
    var position := Meaning(context.baseAssetPositionQuantity);
    max.Some? && quantity.Some? && position.Some? && Upper(Trim(order.side.GetOr(""))) == "BUY" ==>
      position.value + quantity.value <= max.value
  }

  ghost predicate RiskRule(order: RawOrder, info: SymbolInfo, context: RawContext) {
    && (forall f :: Listed(info, "MAX_NUM_ORDERS", f) ==> CountRule(context.openOrderCount, f.maxNumOrders))
    && (forall f :: Listed(info, "MAX_NUM_ALGO_ORDERS", f) ==>
          CountRule(context.openAlgoOrderCount, f.maxNumAlgoOrders))
    && (forall f :: Listed(info, "MAX_POSITION", f) ==> PositionRule(order, context, f))
  }

  ghost predicate Acceptable(order: RawOrder, info: SymbolInfo, context: RawContext) {
    && SymbolRule(order, info) && SizeRule(order) && LotRule(order, info)
    && PriceRule(order.price, info) && PriceRule(order.stopPrice, info) && RequiredRule(order)
    && NotionalRule(order, info, context) && RiskRule(order, info, context)
  }

  // ---------- which filter the source picks ----------

  lemma {:induction false} ByTypeIsLast(filters: seq<RawFilter>, filterType: string)
    ensures var f := ByType(filters, filterType);
            if f.None? then forall j :: 0 <= j < |filters| ==> !IsType(filters[j], filterType)
            else exists i :: 0 <= i < |filters| && filters[i] == f.value && IsType(f.value, filterType) &&
                             forall j :: i < j < |filters| ==> !IsType(filters[j], filterType)
  {
    hide Upper;
    if filters != [] {
      var n := |filters| - 1;
      if !IsType(filters[n], filterType) {
        ByTypeIsLast(filters[..n], filterType);
        var f := ByType(filters[..n], filterType);
        if f.Some? {
          var i :| 0 <= i < n && filters[..n][i] == f.value && IsType(f.value, filterType) &&
              forall j :: i < j < n ==> !IsType(filters[..n][j], filterType);
          assert filters[i] == f.value;
          forall j | i < j < |filters|
            ensures !IsType(filters[j], filterType)
          {
            assert j < n ==> filters[..n][j] == filters[j];
          }
        } else {
          forall j | 0 <= j < |filters|
            ensures !IsType(filters[j], filterType)
          {
            assert j < n ==> filters[..n][j] == filters[j];
          }
        }
      }
    }
  }

  lemma {:induction false} ListedIs(info: SymbolInfo, filterType: string, f: RawFilter)
    ensures Listed(info, filterType, f) <==> ByType(info.filters, filterType) == Some(f)
    ensures InForce(info, filterType, f) <==> f == ByType(info.filters, filterType).GetOr(info.flat)
  {
    hide IsType, ByType;
    ByTypeIsLast(info.filters, filterType);
    if Listed(info, filterType, f) {
      var i :| 0 <= i < |info.filters| && info.filters[i] == f && IsType(f, filterType) &&
          forall j :: i < j < |info.filters| ==> !IsType(info.filters[j], filterType);
      var g := ByType(info.filters, filterType);
      assert g.Some?;
      var k :| 0 <= k < |info.filters| && info.filters[k] == g.value && IsType(g.value, filterType) &&
          forall j :: k < j < |info.filters| ==> !IsType(info.filters[j], filterType);
      assert i == k;
    }
  }
}
