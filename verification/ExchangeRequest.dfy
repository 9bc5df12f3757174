/** Building the exchange's order request from a submit command. */
module ExchangeRequest {
  import opened Wrappers
  import opened Text
  import opened Decimal
  import opened OrderTypes
  import opened StreamContracts

  /** The decimal library's reading of a text; absent when the library refuses it. */
  type Library = string -> Option<real>

  /** The library reads plain decimal strings exactly. */
  ghost predicate Exact(lib: Library) {
    forall s | Plain(s) :: lib(s) == Some(Value(s))
  }

  /** Such libraries exist. */
  lemma ExactIsPossible()
    ensures Exact(s => if Plain(s) then Some(Value(s)) else None)
  {
  }

  predicate IsPositiveDecimal(lib: Library, text: Option<string>) {
    text.Some? && text.value != "" && lib(text.value).Some? && lib(text.value).value > 0.0
  }

  /** The arguments of a placement, as the processor passes them on. */
  datatype OrderArgs = OrderArgs(
    symbol: Option<string>, side: Option<string>, orderType: string,
    quantity: Option<string>, quoteOrderQty: Option<string>, timeInForce: Option<string>,
    price: Option<string>, stopPrice: Option<string>, clientOrderId: Option<string>)

  datatype Params = Params(
    symbol: string, side: string, typ: string, quantity: Option<string>, quoteOrderQty: Option<string>,
    newClientOrderId: Option<string>, price: Option<string>, timeInForce: Option<string>, stopPrice: Option<string>)

  predicate Has(text: Option<string>) {
    text.Some? && text.value != ""
  }

  function MappedType(p: OrderArgs): string {
    Alias(Upper(if p.orderType == "" then "MARKET" else p.orderType))
  }

  predicate SizesAccepted(lib: Library, p: OrderArgs) {
    && (Has(p.quantity) ==> IsPositiveDecimal(lib, p.quantity))
    && (Has(p.quoteOrderQty) ==> IsPositiveDecimal(lib, p.quoteOrderQty))
    && (if MappedType(p) == "MARKET" then Has(p.quantity) != Has(p.quoteOrderQty)
        else Has(p.quantity) && !Has(p.quoteOrderQty))
  }

  predicate Accepted(lib: Library, p: OrderArgs) {
    && SizesAccepted(lib, p)
    && Trim(p.symbol.GetOr("")) != "" && Trim(p.side.GetOr("")) != ""
    && (NeedsPrice(MappedType(p)) ==> IsPositiveDecimal(lib, p.price))
    && (NeedsStopPrice(MappedType(p)) ==> IsPositiveDecimal(lib, p.stopPrice))
  }

  /** The request for an accepted placement: each optional field exactly where its type needs it. */
  function RequestFor(p: OrderArgs): Params {
    var typ := MappedType(p);
    Params(
      Token(p.symbol.GetOr("")), Token(p.side.GetOr("")), typ,
      if Has(p.quantity) then p.quantity else None,
      if Has(p.quantity) then None else p.quoteOrderQty,
      if Has(p.clientOrderId) then p.clientOrderId else None,
      if NeedsPrice(typ) then p.price else None,
      if NeedsTimeInForce(typ) then Some(Upper(if Has(p.timeInForce) then p.timeInForce.value else "GTC")) else None,
      if NeedsStopPrice(typ) then p.stopPrice else None)
  }

  /** `buildOrderRequestParams`, filling the request field by field under the type's branches. */
  method BuildOrderRequestParams(lib: Library, p: OrderArgs) returns (r: Result<Params>)
    ensures r.Ok? <==> Accepted(lib, p)
    ensures r.Ok? ==> r.value == RequestFor(p)
    ensures var name := Upper(if p.orderType == "" then "MARKET" else p.orderType);
            var typ := if name == "STOP_MARKET" then "STOP_LOSS" else name;
            && (r.Ok? <==>
                  && (Has(p.quantity) ==> IsPositiveDecimal(lib, p.quantity))
                  && (Has(p.quoteOrderQty) ==> IsPositiveDecimal(lib, p.quoteOrderQty))
                  && (typ == "MARKET" ==> Has(p.quantity) != Has(p.quoteOrderQty))
                  && (typ != "MARKET" ==> Has(p.quantity) && !Has(p.quoteOrderQty))
                  && Trim(p.symbol.GetOr("")) != "" && Trim(p.side.GetOr("")) != ""
                  && (typ in ["LIMIT", "STOP_LOSS_LIMIT", "TAKE_PROFIT_LIMIT", "LIMIT_MAKER"] ==>
                        IsPositiveDecimal(lib, p.price))
                  && (typ in ["STOP_LOSS", "STOP_LOSS_LIMIT", "TAKE_PROFIT", "TAKE_PROFIT_LIMIT"] ==>
                        IsPositiveDecimal(lib, p.stopPrice)))
            && (r.Ok? ==>
                  && r.value.typ == typ
                  && r.value.symbol == Upper(Trim(p.symbol.GetOr("")))
                  && r.value.side == Upper(Trim(p.side.GetOr("")))
                  && r.value.quantity == (if Has(p.quantity) then p.quantity else None)
                  && r.value.quoteOrderQty == (if Has(p.quantity) then None else p.quoteOrderQty)
                  && r.value.newClientOrderId == (if Has(p.clientOrderId) then p.clientOrderId else None))
  {
    hide IsPositiveDecimal, Trim, Upper;
    var mappedType := MappedType(p);
    if Has(p.quantity) && !IsPositiveDecimal(lib, p.quantity) {
      return Err("quantity must be a positive decimal");
    }
    if Has(p.quoteOrderQty) && !IsPositiveDecimal(lib, p.quoteOrderQty) {
      return Err("quoteOrderQty must be a positive decimal");
    }
    if mappedType == "MARKET" {
      if !Has(p.quantity) && !Has(p.quoteOrderQty) {
        return Err("MARKET requires quantity or quoteOrderQty");
      }
      if Has(p.quantity) && Has(p.quoteOrderQty) {
        return Err("quantity and quoteOrderQty are mutually exclusive");
      }
    } else {
      if !Has(p.quantity) {
        return Err(mappedType + " requires quantity");
      }
      if Has(p.quoteOrderQty) {
        return Err("quoteOrderQty is only supported for MARKET orders");
      }
    }
    if Trim(p.symbol.GetOr("")) == "" {
      return Err("symbol is required");
    }
    if Trim(p.side.GetOr("")) == "" {
      return Err("side is required");
    }
    var params := Params(Token(p.symbol.GetOr("")), Token(p.side.GetOr("")), mappedType, None, None, None, None, None,
        None);
    if Has(p.quantity) {
      params := params.(quantity := p.quantity);
    } else {
      params := params.(quoteOrderQty := p.quoteOrderQty);
    }
    if Has(p.clientOrderId) {
      params := params.(newClientOrderId := p.clientOrderId);
    }
    r := FillPrices(lib, p, params);
  }

  method FillPrices(lib: Library, p: OrderArgs, params: Params) returns (r: Result<Params>)
    requires params.typ == MappedType(p) && params.price.None? && params.timeInForce.None? && params.stopPrice.None?
    ensures r.Ok? <==>
            (NeedsPrice(params.typ) ==> IsPositiveDecimal(lib, p.price)) &&
            (NeedsStopPrice(params.typ) ==> IsPositiveDecimal(lib, p.stopPrice))
    ensures r.Ok? ==>
              r.value == params.(price := RequestFor(p).price, timeInForce := RequestFor(p).timeInForce,
                                 stopPrice := RequestFor(p).stopPrice)
  {
    hide IsPositiveDecimal, Upper, MappedType, Token, Trim;
    var mappedType := params.typ;
    var tif := Upper(if Has(p.timeInForce) then p.timeInForce.value else "GTC");
    var filled := params;
    if mappedType == "LIMIT" {
      if !IsPositiveDecimal(lib, p.price) {
        return Err("LIMIT requires a valid price");
      }
      filled := filled.(price := p.price, timeInForce := Some(tif));
    }
    if mappedType == "LIMIT_MAKER" {
      if !IsPositiveDecimal(lib, p.price) {
        return Err("LIMIT_MAKER requires a valid price");
      }
      filled := filled.(price := p.price);
    }
    if mappedType == "STOP_LOSS" || mappedType == "TAKE_PROFIT" {
      if !IsPositiveDecimal(lib, p.stopPrice) {
        return Err(mappedType + " requires a valid stopPrice");
      }
      filled := filled.(stopPrice := p.stopPrice);
    }
    if mappedType == "STOP_LOSS_LIMIT" || mappedType == "TAKE_PROFIT_LIMIT" {
      if !IsPositiveDecimal(lib, p.price) {
        return Err(mappedType + " requires a valid price");
      }
      if !IsPositiveDecimal(lib, p.stopPrice) {
        return Err(mappedType + " requires a valid stopPrice");
      }
      filled := filled.(price := p.price, stopPrice := p.stopPrice, timeInForce := Some(tif));
    }
    return Ok(filled);
  }

  // ---------- from the contract to the exchange ----------

  function NonBlank(fields: Fields, f: Field): Option<string> {
    if Trim(TextAt(fields, f)) == "" then None else Some(Trim(TextAt(fields, f)))
  }

  function UpperOption(text: Option<string>): Option<string> {
    if text.None? then None else Some(Upper(text.value))
  }

  /** What the processor makes of a parsed command (`normalizeExecutionOrderCommand`) and passes on. */
  function PlacementOf(fields: Fields): OrderArgs {
    OrderArgs(
      UpperOption(NonBlank(fields, Symbol)), UpperOption(NonBlank(fields, Side)),
      Token(if TextAt(fields, OrderType) == "" then "MARKET" else TextAt(fields, OrderType)),
      NonBlank(fields, Quantity), NonBlank(fields, QuoteOrderQty), UpperOption(NonBlank(fields, TimeInForce)),
      NonBlank(fields, Price), NonBlank(fields, StopPrice), NonBlank(fields, OrderId))
  }

  lemma {:induction false} NonZeroDigitIsPositive(s: string, i: nat)
    requires AllDigits(s) && i < |s| && s[i] != '0'
    ensures Nat(s) > 0
  {
    if i < |s| - 1 {
      NonZeroDigitIsPositive(s[..|s| - 1], i);
    }
  }

  lemma NonZeroDigitInParts(s: string)
    requires PositiveDecimalText(s)
    ensures AllDigits(IntPart(s) + FracPart(s))
    ensures exists k :: 0 <= k < |IntPart(s) + FracPart(s)| && (IntPart(s) + FracPart(s))[k] != '0'
  {
    hide CanonicalInt, Nat, Value;
    var i :| 0 <= i < |s| && '1' <= s[i] <= '9';
    var k := if i < DotAt(s) then i else i - 1;
    assert (IntPart(s) + FracPart(s))[k] == s[i];
  }

  lemma PositiveTextIsPositive(s: string)
    requires PositiveDecimalText(s)
    ensures Plain(s) && Value(s) > 0.0 && Trim(s) == s && s != ""
  {
    hide IntPart, FracPart, Nat, Fraction, Trim, Value, AllDigits, DotAt, CanonicalInt;
    NonZeroDigitInParts(s);
    var digits := IntPart(s) + FracPart(s);
    var k :| 0 <= k < |digits| && digits[k] != '0';
    ValueIsFraction(s);
    NonZeroDigitIsPositive(digits, k);
    SameScaleOrder(0, Nat(digits), |FracPart(s)|);
    FractionOfZero(|FracPart(s)|);
    CanonicalIsTrimmed(s);
  }

  lemma PositiveTextIsAccepted(lib: Library, fields: Fields, f: Field)
    requires Exact(lib) && PositiveDecimalText(TextAt(fields, f))
    ensures NonBlank(fields, f) == Some(TextAt(fields, f)) && IsPositiveDecimal(lib, NonBlank(fields, f))
    ensures Has(NonBlank(fields, f))
  {
    hide PositiveDecimalText, Plain, Value, Trim, TextAt;
    PositiveTextIsPositive(TextAt(fields, f));
  }

  // ---------- every contract-valid submit yields a request ----------

  lemma {:induction false} OrderTypeSurvives(s: string)
    requires IsOrderType(s) && Token(s) == s
    ensures s != "" && Upper(s) == s && Alias(s) == s
  {
    UpperIsProjection(Trim(s));
    hide Upper, Trim;
  }

  lemma {:induction false} NormalText<M(!new)>(env: Env<M>, entry: Fields, f: Field)
    requires Sound(env) && Parse(Submit, env, entry).Ok? && f in FieldsOf(Submit)
    ensures var text := TextAt(Parse(Submit, env, entry).value.fields, f);
            Trim(text) == text && (IsTokenField(f) ==> Token(text) == text)
  {
    hide Trim, Token, Problems, NormalField, Sound, FieldsOf;
    NormalFieldIsNormal(Submit, env, entry, f);
    TokenOfEmpty();
  }

  lemma TokenOfEmpty()
    ensures Trim("") == "" && Token("") == ""
  {
  }

  /** The request's price, stop price and time in force: the command's own, exactly where the type needs them. */
  predicate PricesShape(p: Params, fields: Fields) {
    var typ := TextAt(fields, OrderType);
    && p.price == (if typ in ["LIMIT", "STOP_LOSS_LIMIT", "TAKE_PROFIT_LIMIT", "LIMIT_MAKER"]
                   then Some(TextAt(fields, Price)) else None)
    && p.stopPrice == (if typ in ["STOP_LOSS", "STOP_LOSS_LIMIT", "TAKE_PROFIT", "TAKE_PROFIT_LIMIT"]
                       then Some(TextAt(fields, StopPrice)) else None)
    && p.timeInForce == (if typ in ["LIMIT", "STOP_LOSS_LIMIT", "TAKE_PROFIT_LIMIT"]
                         then Some(TextAt(fields, TimeInForce)) else None)
  }

  /** The request's symbol, side, type, size and client order id: the command's own, with exactly one size. */
  predicate SizesShape(p: Params, fields: Fields) {
    var quote := TextAt(fields, QuoteOrderQty);
    && p.symbol == TextAt(fields, Symbol) && p.side == TextAt(fields, Side)
    && p.typ == TextAt(fields, OrderType)
    && p.quantity == (if quote == "" then Some(TextAt(fields, Quantity)) else None)
    && p.quoteOrderQty == (if quote == "" then None else Some(quote))
    && p.newClientOrderId == Some(TextAt(fields, OrderId))
  }

  lemma {:induction false} SizesFit(lib: Library, fields: Fields)
    requires Exact(lib) && SubmitRules(fields)
    requires Token(TextAt(fields, OrderType)) == TextAt(fields, OrderType)
    ensures MappedType(PlacementOf(fields)) == TextAt(fields, OrderType)
    ensures SizesAccepted(lib, PlacementOf(fields))
    ensures var p := PlacementOf(fields);
            if TextAt(fields, QuoteOrderQty) == "" then p.quantity == Some(TextAt(fields, Quantity))
                && p.quoteOrderQty.None?
            else p.quantity.None? && p.quoteOrderQty == Some(TextAt(fields, QuoteOrderQty))
  {
    hide PositiveDecimalText, Trim, Token, Upper, IsOrderType, IsSide, IsTimeInForce, TextAt, IsPositiveDecimal, Alias;
    hide NeedsPrice, NeedsStopPrice, NeedsTimeInForce, Exact;
    TokenOfEmpty();
    OrderTypeSurvives(TextAt(fields, OrderType));
    if TextAt(fields, QuoteOrderQty) == "" {
      PositiveTextIsAccepted(lib, fields, Quantity);
    } else {
      PositiveTextIsAccepted(lib, fields, QuoteOrderQty);
    }
  }

  lemma {:induction false} PricesFit(lib: Library, fields: Fields)
    requires Exact(lib) && SubmitRules(fields)
    ensures var (typ, p) := (TextAt(fields, OrderType), PlacementOf(fields));
            && (NeedsPrice(typ) ==> IsPositiveDecimal(lib, p.price) && p.price == Some(TextAt(fields, Price)))
            && (NeedsStopPrice(typ) ==>
                IsPositiveDecimal(lib, p.stopPrice) && p.stopPrice == Some(TextAt(fields, StopPrice)))
  {
    hide PositiveDecimalText, Trim, Token, Upper, IsOrderType, IsSide, IsTimeInForce, TextAt, IsPositiveDecimal;
    hide NeedsPrice, NeedsStopPrice, NeedsTimeInForce, Exact;
    var typ := TextAt(fields, OrderType);
    if NeedsPrice(typ) {
      PositiveTextIsAccepted(lib, fields, Price);
    }
    if NeedsStopPrice(typ) {
      PositiveTextIsAccepted(lib, fields, StopPrice);
    }
  }

  lemma {:induction false} TimeInForceFits(fields: Fields)
    requires IsTimeInForce(TextAt(fields, TimeInForce))
    requires Token(TextAt(fields, TimeInForce)) == TextAt(fields, TimeInForce)
    ensures Has(PlacementOf(fields).timeInForce)
    ensures Upper(PlacementOf(fields).timeInForce.value) == TextAt(fields, TimeInForce)
  {
    var text := TextAt(fields, TimeInForce);
    TrimIsProjection(text);
    UpperIsProjection(Trim(text));
    TokenIsProjection(text);
    hide Trim, Upper;
  }

  lemma RulesNameSide(fields: Fields)
    requires SubmitRules(fields)
    ensures TextAt(fields, Side) != ""
  {
    hide PositiveDecimalText, IsOrderType, IsTimeInForce, TextAt, NeedsPrice, NeedsStopPrice, NeedsTimeInForce;
  }

  lemma {:induction false} UpperKeepsText(s: string)
    requires Trim(s) == s && s != ""
    ensures Trim(Upper(s)) != ""
  {
    hide Trim, Upper, Trimmed;
    UpperIsProjection(s);
    TrimIsProjection(s);
    TrimIsProjection(Upper(s));
  }

  lemma {:induction false} SymbolAndSideFit(fields: Fields)
    requires forall f :: f == Symbol || f == Side ==> Trim(TextAt(fields, f)) == TextAt(fields, f) != ""
    ensures var p := PlacementOf(fields);
            Trim(p.symbol.GetOr("")) != "" && Trim(p.side.GetOr("")) != ""
  {
    hide Trim, Upper, Token, TextAt;
    UpperKeepsText(TextAt(fields, Symbol));
    UpperKeepsText(TextAt(fields, Side));
  }

  ghost predicate NormalFields(fields: Fields) {
    && (forall f :: f == OrderType || f == TimeInForce || f == Symbol || f == Side ==>
          Token(TextAt(fields, f)) == TextAt(fields, f))
    && (forall f :: f == Symbol || f == Side || f == OrderId ==> Trim(TextAt(fields, f)) == TextAt(fields, f) != "")
  }

  lemma {:induction false} RulesAreAccepted(lib: Library, fields: Fields)
    requires Exact(lib) && SubmitRules(fields) && NormalFields(fields)
    ensures Accepted(lib, PlacementOf(fields))
  {
    hide SubmitRules, Exact, SizesAccepted, PlacementOf, MappedType, NeedsPrice, NeedsStopPrice, IsPositiveDecimal;
    hide Trim, Token, TextAt;
    SymbolAndSideFit(fields);
    SizesFit(lib, fields);
    PricesFit(lib, fields);
  }

  lemma {:induction false} RulesFitSizes(lib: Library, fields: Fields)
    requires Exact(lib) && SubmitRules(fields) && NormalFields(fields)
    ensures SizesShape(RequestFor(PlacementOf(fields)), fields)
  {
    hide SubmitRules, Exact, SizesAccepted, MappedType, NeedsPrice, NeedsStopPrice, NeedsTimeInForce;
    hide Trim, Token, TextAt, Upper, UpperOption;
    SizesFit(lib, fields);
    assert Has(PlacementOf(fields).clientOrderId);
    SizeIsText(fields);
    TokenSurvives(fields, Symbol);
    TokenSurvives(fields, Side);
  }

  lemma {:induction false} TokenSurvives(fields: Fields, f: Field)
    requires Token(TextAt(fields, f)) == TextAt(fields, f) != ""
    ensures UpperOption(NonBlank(fields, f)) == Some(TextAt(fields, f))
  {
    var text := TextAt(fields, f);
    TrimIsProjection(text);
    UpperIsProjection(Trim(text));
    TokenIsProjection(text);
    hide Trim, Upper, TextAt;
  }

  lemma SizeIsText(fields: Fields)
    requires SubmitRules(fields)
    ensures TextAt(fields, QuoteOrderQty) == "" ==> TextAt(fields, Quantity) != ""
  {
    EmptyIsNotDecimal();
    hide PositiveDecimalText, IsOrderType, IsTimeInForce, IsSide, TextAt, NeedsPrice, NeedsStopPrice, NeedsTimeInForce;
  }

  lemma RulesNameTimeInForce(fields: Fields)
    requires SubmitRules(fields) && NeedsTimeInForce(TextAt(fields, OrderType))
    ensures IsTimeInForce(TextAt(fields, TimeInForce))
  {
    hide PositiveDecimalText, IsOrderType, IsTimeInForce, IsSide, TextAt, NeedsPrice, NeedsStopPrice, NeedsTimeInForce;
  }

  lemma {:induction false} RulesFitPrices(lib: Library, fields: Fields)
    requires Exact(lib) && SubmitRules(fields) && NormalFields(fields)
    ensures PricesShape(RequestFor(PlacementOf(fields)), fields)
  {
    hide SubmitRules, Exact, SizesAccepted, PlacementOf, MappedType, NeedsPrice, NeedsStopPrice, NeedsTimeInForce;
    hide IsTimeInForce, Trim, Token, TextAt, Upper, IsPositiveDecimal;
    SizesFit(lib, fields);
    PricesFit(lib, fields);
    TypesNeed(TextAt(fields, OrderType));
    if NeedsTimeInForce(TextAt(fields, OrderType)) {
      RulesNameTimeInForce(fields);
      TimeInForceFits(fields);
    }
  }

  /**
    Every submit command that parses is accepted for placement, and its request carries the price,
    stop price and time in force exactly where its type needs them, with the command's own values.
   */
  lemma {:induction false} ValidSubmitYieldsRequest<M(!new)>(lib: Library, env: Env<M>, entry: Fields)
    requires Exact(lib) && Sound(env) && Parse(Submit, env, entry).Ok?
    ensures var fields := Parse(Submit, env, entry).value.fields;
            var request := RequestFor(PlacementOf(fields));
            Accepted(lib, PlacementOf(fields)) && SizesShape(request, fields) && PricesShape(request, fields)
  {
    hide Normalize, Problems, SubmitRules, Accepted, SizesShape, PricesShape, RequestFor, PlacementOf, Trim, Token,
        FieldsOf, TextAt;
    hide MessageTypeOf, Sound, Exact;
    var c := Parse(Submit, env, entry).value;
    ProblemsDecide(Submit, env, c);
    SubmitFieldsAreListed();
    NormalText(env, entry, OrderType);
    NormalText(env, entry, TimeInForce);
    NormalText(env, entry, OrderId);
    NormalText(env, entry, Symbol);
    NormalText(env, entry, Side);
    RulesNameSide(c.fields);
    RulesAreAccepted(lib, c.fields);
    RulesFitSizes(lib, c.fields);
    RulesFitPrices(lib, c.fields);
  }

  lemma SubmitFieldsAreListed()
    ensures {OrderType, TimeInForce, OrderId, Symbol, Side} <= FieldsOf(Submit)
  {
  }
}
