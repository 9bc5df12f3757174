/** The validator as the source runs it: one list of errors, pushed onto by every rule in turn. */
module FilterValidator {
  import opened Wrappers
  import opened Decimal
  import opened OrderTypes
  import opened ExchangeFilters

  class ErrorList {
    var items: seq<FilterError>

    constructor ()
      ensures items == []
    {
      items := [];
    }

    method Push(field: string, code: string, message: string)
      modifies this
      ensures items == old(items) + [FilterError(field, code, message)]
    {
      items := items + [FilterError(field, code, message)];
    }
  }

  method ValidateQuantityFilter(errors: ErrorList, field: string, filter: QuantityFilter<Dec>, quantity: Dec)
    modifies errors
    ensures errors.items == QuantityErrors(old(errors.items), field, filter, quantity)
  {
    if filter.minQty.Some? && Compare(quantity, filter.minQty.value) < 0 {
      errors.Push(field, MinCode(filter.filterType), AtLeast(field, filter.minQty.value));
    }
    if filter.maxQty.Some? && Compare(quantity, filter.maxQty.value) > 0 {
      errors.Push(field, MaxCode(filter.filterType), AtMost(field, filter.maxQty.value));
    }
    if filter.stepSize.Some? && !IsMultiple(quantity, filter.stepSize.value) {
      errors.Push(field, StepCode(filter.filterType), AlignTo(field, "stepSize", filter.stepSize.value));
    }
  }

  method ValidatePriceFilter(errors: ErrorList, field: string, filter: PriceFilter<Dec>, value: Dec)
    modifies errors
    ensures errors.items == PriceErrors(old(errors.items), field, filter, value)
  {
    if filter.minPrice.Some? && Compare(value, filter.minPrice.value) < 0 {
      errors.Push(field, "PRICE_FILTER_MIN", AtLeast(field, filter.minPrice.value));
    }
    if filter.maxPrice.Some? && Compare(value, filter.maxPrice.value) > 0 {
      errors.Push(field, "PRICE_FILTER_MAX", AtMost(field, filter.maxPrice.value));
    }
    if filter.tickSize.Some? && !IsMultiple(value, filter.tickSize.value) {
      errors.Push(field, "PRICE_FILTER_TICK", AlignTo(field, "tickSize", filter.tickSize.value));
    }
  }

  method ValidateMinNotional(errors: ErrorList, notional: Dec, minNotional: Dec, filterType: string)
    modifies errors
    ensures errors.items == MinNotionalErrors(old(errors.items), notional, Some(minNotional), filterType)
  {
    if Compare(notional, minNotional) < 0 {
      errors.Push("notional", MinCode(filterType), AtLeast("notional", minNotional));
    }
  }

  method ValidateMaxNotional(errors: ErrorList, notional: Dec, maxNotional: Dec, filterType: string)
    modifies errors
    ensures errors.items == MaxNotionalErrors(old(errors.items), notional, Some(maxNotional), filterType)
  {
    if Compare(notional, maxNotional) > 0 {
      errors.Push("notional", MaxCode(filterType), AtMost("notional", maxNotional));
    }
  }

  method ValidateNotionalFilters(errors: ErrorList, order: Order<Dec>, filters: Filters<Dec>,
      referencePrice: Option<Dec>)
    modifies errors
    ensures errors.items == NotionalErrors(old(errors.items), order, filters, referencePrice)
  {
    if order.quantity.None? && order.quoteOrderQty.None? {
      return;
    }
    var notional := SelectNotional(order, referencePrice);
    if notional.None? {
      return;
    }
    var marketLike := MarketLike(order.orderType);
    if filters.minNotional.Some? && (!marketLike || filters.minNotional.value.applyToMarket) {
      ValidateMinNotional(errors, notional.value, filters.minNotional.value.minNotional, "MIN_NOTIONAL");
    }
    if filters.notional.Some? {
      var f := filters.notional.value;
      if f.minNotional.Some? && (!marketLike || f.applyMinToMarket) {
        ValidateMinNotional(errors, notional.value, f.minNotional.value, "NOTIONAL");
      }
      if f.maxNotional.Some? && (!marketLike || f.applyMaxToMarket) {
        ValidateMaxNotional(errors, notional.value, f.maxNotional.value, "NOTIONAL");
      }
    }
  }

  method ValidateOptionalRiskContext(errors: ErrorList, order: Order<Dec>, filters: Filters<Dec>, context: Context<Dec>)
    modifies errors
    ensures errors.items == RiskErrors(old(errors.items), order, filters, context)
  {
    hide Compare, Add, NatToString, CountBelow, AtMost;
    if CountReached(context.openOrderCount, filters.maxNumOrders) {
      errors.Push("symbol", "MAX_NUM_ORDERS",
                  CountBelow("open order", filters.maxNumOrders.value));
    }
    if CountReached(context.openAlgoOrderCount, filters.maxNumAlgoOrders) {
      errors.Push("symbol", "MAX_NUM_ALGO_ORDERS",
                  CountBelow("open algo order", filters.maxNumAlgoOrders.value));
    }
    if filters.maxPosition.Some? && order.side == "BUY" && context.position.Some? && order.quantity.Some? {
      var projected := Add(context.position.value, order.quantity.value);
      if Compare(projected, filters.maxPosition.value) > 0 {
        errors.Push("quantity", "MAX_POSITION",
                    AtMost("projected position", filters.maxPosition.value));
      }
    }
  }

  method ValidateSymbol(errors: ErrorList, order: Order<Dec>, filters: Filters<Dec>)
    modifies errors
    ensures errors.items == SymbolErrors(old(errors.items), order, filters)
  {
    if order.symbol == "" {
      errors.Push("symbol", "SYMBOL_REQUIRED", "symbol is required");
    } else if filters.symbol.Some? && order.symbol != filters.symbol.value {
      errors.Push("symbol", "SYMBOL_MISMATCH", MustMatch(filters.symbol.value));
    }
  }

  method ValidateSizing(errors: ErrorList, order: Order<Dec>)
    modifies errors
    ensures errors.items == SizingErrors(old(errors.items), order)
  {
    if order.quantity.None? && order.quoteOrderQty.None? {
      errors.Push("quantity", "QUANTITY_REQUIRED", "quantity or quoteOrderQty is required");
    }
    if order.quantity.Some? && order.quoteOrderQty.Some? {
      errors.Push("quoteOrderQty", "QUOTE_ORDER_QTY_EXCLUSIVE", "quantity and quoteOrderQty are mutually exclusive");
    }
    if order.quoteOrderQty.Some? && order.orderType != "MARKET" {
      errors.Push("quoteOrderQty", "QUOTE_ORDER_QTY_UNSUPPORTED",
                  "quoteOrderQty is only supported for MARKET orders");
    }
  }

  method ValidateRequiredPrices(errors: ErrorList, order: Order<Dec>)
    modifies errors
    ensures errors.items == RequiredPriceErrors(old(errors.items), order)
  {
    if NeedsPrice(order.orderType) && order.price.None? {
      errors.Push("price", "PRICE_REQUIRED", Requires(order.orderType, "price"));
    }
    if NeedsStopPrice(order.orderType) && order.stopPrice.None? {
      errors.Push("stopPrice", "STOP_PRICE_REQUIRED", Requires(order.orderType, "stopPrice"));
    }
  }

  /** `validateOrderAgainstExchangeFilters`: every rule in the source's order, on one shared list. */
  method ValidateOrderAgainstExchangeFilters(order: RawOrder, info: SymbolInfo, context: RawContext)
    returns (result: Validation)
    ensures result == Validate(order, info, context)
  {
    hide SymbolErrors, SizingErrors, QuantityErrors, PriceErrors, RequiredPriceErrors, NotionalErrors, RiskErrors;
    hide NormalizeFilters, NormalizeOrder, NormalizeContext, SelectQuantityFilter;
    var errors := new ErrorList();
    var filters := NormalizeFilters(info, ReadPositive);
    var normalized := NormalizeOrder(order, ReadPositive);
    var risk := NormalizeContext(context, ReadPositive, ReadNonNegative);
    ValidateSymbol(errors, normalized, filters);
    ValidateSizing(errors, normalized);
    var quantityFilter := SelectQuantityFilter(normalized.orderType, filters);
    if normalized.quantity.Some? && quantityFilter.Some? {
      ValidateQuantityFilter(errors, "quantity", quantityFilter.value, normalized.quantity.value);
    }
    if normalized.price.Some? {
      ValidatePriceFilter(errors, "price", filters.priceFilter, normalized.price.value);
    }
    if normalized.stopPrice.Some? {
      ValidatePriceFilter(errors, "stopPrice", filters.priceFilter, normalized.stopPrice.value);
    }
    ValidateRequiredPrices(errors, normalized);
    ValidateNotionalFilters(errors, normalized, filters, risk.referencePrice);
    ValidateOptionalRiskContext(errors, normalized, filters, risk);
    result := Validation(errors.items == [], errors.items, filters);
  }
}
