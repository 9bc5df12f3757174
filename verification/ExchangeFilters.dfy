/**
  The exchange-filter decision: a raw order, the exchange's symbol filters and an optional risk
  context are normalised, and every violated rule is pushed onto a list of errors.

  The normalised shapes are generic in the type of their decimals. The code works on canonical
  decimal strings; `Accepts` states the same decision over real numbers.
 */
module ExchangeFilters {
  import opened Wrappers
  import opened Text
  import opened Decimal
  import opened OrderTypes

  /** A canonical decimal string. */
  type Dec = s: string | Canonical(s) witness "0"

  // ---------- raw inputs ----------

  /** Counts are the outcome of `Number(..)`, absent when that is not a finite number. */
  datatype RawFilter = RawFilter(
    filterType: Option<string>,
    minPrice: Option<string>, maxPrice: Option<string>, tickSize: Option<string>,
    minQty: Option<string>, maxQty: Option<string>, stepSize: Option<string>,
    minNotional: Option<string>, maxNotional: Option<string>,
    applyToMarket: bool, applyMinToMarket: bool, applyMaxToMarket: bool,
    maxNumOrders: Option<real>, maxNumAlgoOrders: Option<real>, maxPosition: Option<string>)

  /** `flat` holds the filter fields that may sit on the symbol object itself. */
  datatype SymbolInfo = SymbolInfo(
    symbol: Option<string>, baseAsset: Option<string>, quoteAsset: Option<string>,
    filters: seq<RawFilter>, flat: RawFilter)

  datatype RawOrder = RawOrder(
    symbol: Option<string>, side: Option<string>, orderType: Option<string>, typ: Option<string>,
    quantity: Option<string>, quoteOrderQty: Option<string>, price: Option<string>, stopPrice: Option<string>)

  datatype RawContext = RawContext(
    marketReferencePrice: Option<string>, averagePrice: Option<string>, lastPrice: Option<string>,
    openOrderCount: Option<real>, openAlgoOrderCount: Option<real>, baseAssetPositionQuantity: Option<string>)

  // ---------- normalised shapes ----------

  datatype PriceFilter<+D> = PriceFilter(minPrice: Option<D>, maxPrice: Option<D>, tickSize: Option<D>)

  datatype QuantityFilter<+D> =
    QuantityFilter(filterType: string, minQty: Option<D>, maxQty: Option<D>, stepSize: Option<D>)

  datatype MinNotional<+D> = MinNotional(minNotional: D, applyToMarket: bool)

  datatype Notional<+D> =
    Notional(minNotional: Option<D>, maxNotional: Option<D>, applyMinToMarket: bool, applyMaxToMarket: bool)

  datatype Filters<+D> = Filters(
    symbol: Option<string>, baseAsset: Option<string>, quoteAsset: Option<string>,
    priceFilter: PriceFilter<D>, lotSize: Option<QuantityFilter<D>>, marketLotSize: Option<QuantityFilter<D>>,
    minNotional: Option<MinNotional<D>>, notional: Option<Notional<D>>,
    maxNumOrders: Option<nat>, maxNumAlgoOrders: Option<nat>, maxPosition: Option<D>)

  datatype Order<+D> = Order(
    symbol: string, side: string, orderType: string,
    quantity: Option<D>, quoteOrderQty: Option<D>, price: Option<D>, stopPrice: Option<D>)

  datatype Context<+D> = Context(
    referencePrice: Option<D>, openOrderCount: Option<real>, openAlgoOrderCount: Option<real>, position: Option<D>)

  // ---------- reading decimals ----------

  lemma {:induction false} CanonicalReads(d: Dec)
    ensures Meaning(Some(d)) == Some(Value(d))
    ensures NonNegativeDecimal(Some(d)) == Some(d)
  {
    CanonicalIsTrimmed(d);
    ReadingMeans(Some(d));
    CanonicalUnique(NonNegativeDecimal(Some(d)).value, d);
  }

  function ReadNonNegative(value: Option<string>): Option<Dec> {
    ReadingMeans(value);
    NonNegativeDecimal(value)
  }

  /** A readable decimal that is not zero (`enabledDecimal` and `positiveDecimalString`). */
  function ReadPositive(value: Option<string>): Option<Dec> {
    match ReadNonNegative(value)
    case None => None
    case Some(decimal) =>
      CanonicalReads(decimal);
      IsZeroMeans(decimal);
      if IsZeroDecimal(decimal).value then None else Some(decimal)
  }

  /** What a positive input denotes. */
  function PositiveMeaning(value: Option<string>): Option<real> {
    if Meaning(value).Some? && Meaning(value).value > 0.0 then Meaning(value) else None
  }

  function ValueOf(d: Option<Dec>): Option<real> {
    if d.Some? then Some(Value(d.value)) else None
  }

  lemma {:induction false} ReadPositiveMeans(value: Option<string>)
    ensures ValueOf(ReadPositive(value)) == PositiveMeaning(value)
    ensures ValueOf(ReadNonNegative(value)) == Meaning(value)
  {
    hide Meaning, NonNegativeDecimal, Canonical, Value, IsZeroDecimal;
    ReadingMeans(value);
    if ReadNonNegative(value).Some? {
      var d := ReadNonNegative(value).value;
      CanonicalReads(d);
      IsZeroMeans(d);
    }
  }

  lemma {:induction false} RespellingReadsPositiveAlike(a: Option<string>, b: Option<string>)
    requires Meaning(a) == Meaning(b)
    ensures ReadPositive(a) == ReadPositive(b) && ReadNonNegative(a) == ReadNonNegative(b)
  {
    RespellingReadsAlike(a, b);
  }

  // ---------- normalising filters, order and context ----------

  function TextOf(value: Option<string>): string {
    Trim(value.GetOr(""))
  }

  function TokenOrNone(value: Option<string>): Option<string> {
    var token := Upper(TextOf(value));
    if token == "" then None else Some(token)
  }

  /** The last filter of a type wins, as the source's Map keeps the last entry of a key. */
  function ByType(filters: seq<RawFilter>, filterType: string): Option<RawFilter> {
    if filters == [] then None
    else if Upper(filters[|filters| - 1].filterType.GetOr("")) == filterType then Some(filters[|filters| - 1])
    else ByType(filters[..|filters| - 1], filterType)
  }

  type Reader<!D> = Option<string> -> Option<D>

  function NormalizeQuantityFilter<D>(f: RawFilter, filterType: string, read: Reader<D>): Option<QuantityFilter<D>> {
    var out := QuantityFilter(filterType, read(f.minQty), read(f.maxQty), read(f.stepSize));
    if out.minQty.Some? || out.maxQty.Some? || out.stepSize.Some? then Some(out) else None
  }

  function NormalizeMinNotional<D>(f: RawFilter, read: Reader<D>): Option<MinNotional<D>> {
    match read(f.minNotional)
    case None => None
    case Some(minNotional) => Some(MinNotional(minNotional, f.applyToMarket))
  }

  function NormalizeNotional<D>(f: RawFilter, read: Reader<D>): Option<Notional<D>> {
    var out := Notional(read(f.minNotional), read(f.maxNotional), f.applyMinToMarket, f.applyMaxToMarket);
    if out.minNotional.Some? || out.maxNotional.Some? then Some(out) else None
  }

  /** A positive integer, or nothing. */
  function NormalizeInteger(value: Option<real>): Option<nat> {
    if value.Some? && value.value == value.value.Floor as real && value.value.Floor > 0
    then Some(value.value.Floor) else None
  }

  /** The filter that each rule reads: the listed one, or for some rules the symbol object itself. */
  datatype Chosen = Chosen(
    price: RawFilter, lot: RawFilter, marketLot: Option<RawFilter>, minNotional: RawFilter, notional: RawFilter,
    numOrders: Option<RawFilter>, numAlgoOrders: Option<RawFilter>, position: Option<RawFilter>)

  function Choose(info: SymbolInfo): Chosen {
    Chosen(
      ByType(info.filters, "PRICE_FILTER").GetOr(info.flat),
      ByType(info.filters, "LOT_SIZE").GetOr(info.flat),
      ByType(info.filters, "MARKET_LOT_SIZE"),
      ByType(info.filters, "MIN_NOTIONAL").GetOr(info.flat),
      ByType(info.filters, "NOTIONAL").GetOr(info.flat),
      ByType(info.filters, "MAX_NUM_ORDERS"),
      ByType(info.filters, "MAX_NUM_ALGO_ORDERS"),
      ByType(info.filters, "MAX_POSITION"))
  }

  function NormalizePriceFilter<D>(f: RawFilter, read: Reader<D>): PriceFilter<D> {
    PriceFilter(read(f.minPrice), read(f.maxPrice), read(f.tickSize))
  }

  function NormalizeLot<D>(f: RawFilter, read: Reader<D>): Option<QuantityFilter<D>> {
    NormalizeQuantityFilter(f, "LOT_SIZE", read)
  }

  function NormalizeMarketLot<D>(f: Option<RawFilter>, read: Reader<D>): Option<QuantityFilter<D>> {
    if f.None? then None else NormalizeQuantityFilter(f.value, "MARKET_LOT_SIZE", read)
  }

  function ReadMaxPosition<D>(f: Option<RawFilter>, read: Reader<D>): Option<D> {
    if f.None? then None else read(f.value.maxPosition)
  }

  function NormalizeFilters<D>(info: SymbolInfo, read: Reader<D>): Filters<D> {
    var chosen := Choose(info);
    Filters(
      TokenOrNone(info.symbol), TokenOrNone(info.baseAsset), TokenOrNone(info.quoteAsset),
      NormalizePriceFilter(chosen.price, read),
      NormalizeLot(chosen.lot, read),
      NormalizeMarketLot(chosen.marketLot, read),
      NormalizeMinNotional(chosen.minNotional, read),
      NormalizeNotional(chosen.notional, read),
      if chosen.numOrders.None? then None else NormalizeInteger(chosen.numOrders.value.maxNumOrders),
      if chosen.numAlgoOrders.None? then None else NormalizeInteger(chosen.numAlgoOrders.value.maxNumAlgoOrders),
      ReadMaxPosition(chosen.position, read))
  }

  predicate Truthy(value: Option<string>) {
    value.Some? && value.value != ""
  }

  /** The JavaScript `a || b`. */
  function FirstTruthy(a: Option<string>, b: Option<string>): Option<string> {
    if Truthy(a) then a else b
  }

  function NormalizeOrderType(value: Option<string>): string {
    var token := Upper(TextOf(value));
    Alias(if token == "" then "MARKET" else token)
  }

  function NormalizeOrder<D>(order: RawOrder, read: Reader<D>): Order<D> {
    Order(
      Upper(TextOf(order.symbol)), Upper(TextOf(order.side)),
      NormalizeOrderType(FirstTruthy(FirstTruthy(order.orderType, order.typ), Some("MARKET"))),
      read(order.quantity), read(order.quoteOrderQty), read(order.price), read(order.stopPrice))
  }

  function NormalizeContext<D>(context: RawContext, readPositive: Reader<D>, readAny: Reader<D>): Context<D> {
    Context(
      readPositive(FirstTruthy(FirstTruthy(context.marketReferencePrice, context.averagePrice), context.lastPrice)),
      context.openOrderCount, context.openAlgoOrderCount,
      readAny(context.baseAssetPositionQuantity))
  }

  // ---------- the errors of each rule ----------

  datatype FilterError = FilterError(field: string, code: string, message: string)

  type Errors = seq<FilterError>

  /** The list after a rule that reports one error under a condition. */
  function PushIf(errors: Errors, condition: bool, field: string, code: string, message: string): Errors {
    if condition then errors + [FilterError(field, code, message)] else errors
  }

  // Wording and codes are functions so that proofs need not look into string concatenation.

  function MinCode(filterType: string): string { filterType + "_MIN" }
  function MaxCode(filterType: string): string { filterType + "_MAX" }
  function StepCode(filterType: string): string { filterType + "_STEP" }
  function AtLeast(field: string, bound: string): string { field + " must be at least " + bound }
  function AtMost(field: string, bound: string): string { field + " must be at most " + bound }
  function AlignTo(field: string, step: string,
      bound: string): string { field + " must align to " + step + " " + bound }
  function Requires(subject: string, field: string): string { subject + " requires " + field }
  function MustMatch(symbol: string): string { "symbol must match " + symbol }
  function CountBelow(subject: string, limit: nat): string { subject + " count must be below " + NatToString(limit) }

  function Show(d: Option<Dec>): string {
    if d.Some? then d.value else ""
  }

  function Compare(a: Dec, b: Dec): (c: int)
    ensures c < 0 <==> Value(a) < Value(b)
    ensures c > 0 <==> Value(a) > Value(b)
  {
    hide Meaning, Canonical, Value, CompareDecimals, IsDecimalMultiple, MultiplyDecimals, AddDecimals;
    CanonicalReads(a);
    CanonicalReads(b);
    CompareMeans(a, b);
    CompareDecimals(a, b).value
  }

  function IsMultiple(a: Dec, b: Dec): (m: bool)
    ensures m <==> MultipleOf(Value(a), Value(b))
  {
    hide Meaning, Canonical, Value, CompareDecimals, IsDecimalMultiple, MultiplyDecimals, AddDecimals;
    CanonicalReads(a);
    CanonicalReads(b);
    IsMultipleMeans(a, b);
    IsDecimalMultiple(a, b).value
  }

  lemma {:induction false} ProductIsExact(a: Dec, b: Dec)
    ensures MultiplyDecimals(a, b).Ok?
    ensures var p := MultiplyDecimals(a, b).value;
            Canonical(p) && Value(p) == Value(a) * Value(b)
  {
    hide *;
    CanonicalReads(a);
    CanonicalReads(b);
    MultiplyMeans(a, b);
  }

  lemma {:induction false} SumIsExact(a: Dec, b: Dec)
    ensures AddDecimals(a, b).Ok?
    ensures var p := AddDecimals(a, b).value;
            Canonical(p) && Value(p) == Value(a) + Value(b)
  {
    hide *;
    CanonicalReads(a);
    CanonicalReads(b);
    AddMeans(a, b);
  }

  function Multiply(a: Dec, b: Dec): Dec {
    hide Meaning, Canonical, Value, MultiplyDecimals;
    ProductIsExact(a, b);
    MultiplyDecimals(a, b).value
  }

  function Add(a: Dec, b: Dec): Dec {
    hide Meaning, Canonical, Value, AddDecimals;
    SumIsExact(a, b);
    AddDecimals(a, b).value
  }

  lemma {:induction false} MultiplyIsExact(a: Dec, b: Dec)
    ensures Value(Multiply(a, b)) == Value(a) * Value(b)
  {
    ProductIsExact(a, b);
    hide MultiplyDecimals, Value, Canonical;
  }

  lemma {:induction false} AddIsExact(a: Dec, b: Dec)
    ensures Value(Add(a, b)) == Value(a) + Value(b)
  {
    SumIsExact(a, b);
    hide AddDecimals, Value, Canonical;
  }

  // Each function below is the list of errors after one group of rules, given the list before it.

  function SymbolErrors(errors: Errors, order: Order<Dec>, filters: Filters<Dec>): Errors {
    if order.symbol == "" then PushIf(errors, true, "symbol", "SYMBOL_REQUIRED", "symbol is required")
    else
      PushIf(errors, filters.symbol.Some? && order.symbol != filters.symbol.value,
             "symbol", "SYMBOL_MISMATCH", MustMatch(filters.symbol.GetOr("")))
  }

  function SizingErrors(errors: Errors, order: Order<Dec>): Errors {
    var e1 := PushIf(errors, order.quantity.None? && order.quoteOrderQty.None?,
                     "quantity", "QUANTITY_REQUIRED", "quantity or quoteOrderQty is required");
    var e2 := PushIf(e1, order.quantity.Some? && order.quoteOrderQty.Some?,
                     "quoteOrderQty", "QUOTE_ORDER_QTY_EXCLUSIVE", "quantity and quoteOrderQty are mutually exclusive");
    PushIf(e2, order.quoteOrderQty.Some? && order.orderType != "MARKET",
           "quoteOrderQty", "QUOTE_ORDER_QTY_UNSUPPORTED", "quoteOrderQty is only supported for MARKET orders")
  }

  function SelectQuantityFilter<D>(orderType: string, filters: Filters<D>): Option<QuantityFilter<D>> {
    if orderType == "MARKET" && filters.marketLotSize.Some? then filters.marketLotSize else filters.lotSize
  }

  predicate Under(d: Dec, bound: Option<Dec>) {
    bound.Some? && Compare(d, bound.value) < 0
  }

  predicate Over(d: Dec, bound: Option<Dec>) {
    bound.Some? && Compare(d, bound.value) > 0
  }

  predicate OffStep(d: Dec, step: Option<Dec>) {
    step.Some? && !IsMultiple(d, step.value)
  }

  function QuantityErrors(errors: Errors, field: string, f: QuantityFilter<Dec>, quantity: Dec): Errors {
    var e1 := PushIf(errors, Under(quantity, f.minQty), field, MinCode(f.filterType), AtLeast(field, Show(f.minQty)));
    var e2 := PushIf(e1, Over(quantity, f.maxQty), field, MaxCode(f.filterType), AtMost(field, Show(f.maxQty)));
    PushIf(e2, OffStep(quantity, f.stepSize), field, StepCode(f.filterType),
        AlignTo(field, "stepSize", Show(f.stepSize)))
  }

  function PriceErrors(errors: Errors, field: string, f: PriceFilter<Dec>, value: Dec): Errors {
    var e1 := PushIf(errors, Under(value, f.minPrice), field, "PRICE_FILTER_MIN", AtLeast(field, Show(f.minPrice)));
    var e2 := PushIf(e1, Over(value, f.maxPrice), field, "PRICE_FILTER_MAX", AtMost(field, Show(f.maxPrice)));
    PushIf(e2, OffStep(value, f.tickSize), field, "PRICE_FILTER_TICK", AlignTo(field, "tickSize", Show(f.tickSize)))
  }

  function LotErrors(errors: Errors, order: Order<Dec>, filters: Filters<Dec>): Errors {
    var f := SelectQuantityFilter(order.orderType, filters);
    if order.quantity.Some?
        && f.Some? then QuantityErrors(errors, "quantity", f.value, order.quantity.value) else errors
  }

  function OptionalPriceErrors(errors: Errors, field: string, f: PriceFilter<Dec>, value: Option<Dec>): Errors {
    if value.Some? then PriceErrors(errors, field, f, value.value) else errors
  }

  function RequiredPriceErrors(errors: Errors, order: Order<Dec>): Errors {
    var e1 := PushIf(errors, NeedsPrice(order.orderType) && order.price.None?,
                     "price", "PRICE_REQUIRED", Requires(order.orderType, "price"));
    PushIf(e1, NeedsStopPrice(order.orderType) && order.stopPrice.None?,
           "stopPrice", "STOP_PRICE_REQUIRED", Requires(order.orderType, "stopPrice"))
  }

  function SelectNotional(order: Order<Dec>, referencePrice: Option<Dec>): Option<Dec> {
    if order.quoteOrderQty.Some? then order.quoteOrderQty
    else
      var price := OrElse(OrElse(order.price, referencePrice), order.stopPrice);
      if price.None? || order.quantity.None? then None
      else Some(Multiply(order.quantity.value, price.value))
  }

  function MinNotionalErrors(errors: Errors, notional: Dec, minNotional: Option<Dec>, filterType: string): Errors {
    PushIf(errors, Under(notional, minNotional), "notional", MinCode(filterType),
        AtLeast("notional", Show(minNotional)))
  }

  function MaxNotionalErrors(errors: Errors, notional: Dec, maxNotional: Option<Dec>, filterType: string): Errors {
    PushIf(errors, Over(notional, maxNotional), "notional", MaxCode(filterType), AtMost("notional", Show(maxNotional)))
  }

  /** The bound that applies to the order type: market-like types are only bound when the filter says so. */
  function Applicable<D>(bound: Option<D>, orderType: string, applyToMarket: bool): Option<D> {
    if !MarketLike(orderType) || applyToMarket then bound else None
  }

  function MinNotionalBound<D>(filters: Filters<D>, orderType: string): Option<D> {
    if filters.minNotional.None? then None
    else Applicable(Some(filters.minNotional.value.minNotional), orderType, filters.minNotional.value.applyToMarket)
  }

  function NotionalMin<D>(filters: Filters<D>, orderType: string): Option<D> {
    if filters.notional.None? then None
    else Applicable(filters.notional.value.minNotional, orderType, filters.notional.value.applyMinToMarket)
  }

  function NotionalMax<D>(filters: Filters<D>, orderType: string): Option<D> {
    if filters.notional.None? then None
    else Applicable(filters.notional.value.maxNotional, orderType, filters.notional.value.applyMaxToMarket)
  }

  function NotionalErrors(errors: Errors, order: Order<Dec>, filters: Filters<Dec>,
      referencePrice: Option<Dec>): Errors {
    match SelectNotional(order, referencePrice)
    case None => errors
    case Some(notional) =>
      var e1 := MinNotionalErrors(errors, notional, MinNotionalBound(filters, order.orderType), "MIN_NOTIONAL");
      var e2 := MinNotionalErrors(e1, notional, NotionalMin(filters, order.orderType), "NOTIONAL");
      MaxNotionalErrors(e2, notional, NotionalMax(filters, order.orderType), "NOTIONAL")
  }

  predicate CountReached(count: Option<real>, limit: Option<nat>) {
    limit.Some? && count.Some? && count.value >= limit.value as real
  }

  predicate PositionExceeded(order: Order<Dec>, maxPosition: Option<Dec>, position: Option<Dec>) {
    order.side == "BUY" && position.Some? && order.quantity.Some? &&
    Over(Add(position.value, order.quantity.value), maxPosition)
  }

  function RiskErrors(errors: Errors, order: Order<Dec>, filters: Filters<Dec>, context: Context<Dec>): Errors {
    var e1 := PushIf(errors, CountReached(context.openOrderCount, filters.maxNumOrders),
                     "symbol", "MAX_NUM_ORDERS", CountBelow("open order", filters.maxNumOrders.GetOr(0)));
    var e2 := PushIf(e1, CountReached(context.openAlgoOrderCount, filters.maxNumAlgoOrders),
                     "symbol", "MAX_NUM_ALGO_ORDERS", CountBelow("open algo order", filters.maxNumAlgoOrders.GetOr(0)));
    PushIf(e2, PositionExceeded(order, filters.maxPosition, context.position),
           "quantity", "MAX_POSITION", AtMost("projected position", Show(filters.maxPosition)))
  }

  function FilterErrors(order: Order<Dec>, filters: Filters<Dec>, context: Context<Dec>): Errors {
    var e1 := SymbolErrors([], order, filters);
    var e2 := SizingErrors(e1, order);
    var e3 := LotErrors(e2, order, filters);
    var e4 := OptionalPriceErrors(e3, "price", filters.priceFilter, order.price);
    var e5 := OptionalPriceErrors(e4, "stopPrice", filters.priceFilter, order.stopPrice);
    var e6 := RequiredPriceErrors(e5, order);
    var e7 := NotionalErrors(e6, order, filters, context.referencePrice);
    RiskErrors(e7, order, filters, context)
  }

  datatype Validation = Validation(ok: bool, errors: Errors, filters: Filters<Dec>)

  function Validate(order: RawOrder, info: SymbolInfo, context: RawContext): Validation {
    var filters := NormalizeFilters(info, ReadPositive);
    var errors := FilterErrors(NormalizeOrder(order, ReadPositive), filters,
                               NormalizeContext(context, ReadPositive, ReadNonNegative));
    Validation(errors == [], errors, filters)
  }
}
