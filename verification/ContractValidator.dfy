/** The contract validators as the source runs them: checks in sequence, pushing onto one error list. */
module ContractValidator {
  import opened Wrappers
  import opened Text
  import opened OrderTypes
  import opened StreamContracts

  method ValidateHeader<M>(kind: Kind, env: Env<M>, c: Command<M>) returns (errors: seq<string>)
    ensures errors == HeaderProblems(kind, env, c)
  {
    hide Missing, MustBe, NameOf, MessageTypeOf, Trim, TextAt, VersionProblems;
    errors := ValidateVersion(kind, c.fields);
    errors := RequireText(errors, c.fields, CommandId);
    if kind != CancelAll {
      errors := RequireText(errors, c.fields, OrderId);
    }
    errors := RequireText(errors, c.fields, UserId);
    errors := RequireText(errors, c.fields, Symbol);
    errors := RequireText(errors, c.fields, CreatedAt);
    if CreatedAt in c.fields && !env.isTimestamp(c.fields[CreatedAt]) {
      errors := errors + [MustBe(CreatedAt, "an ISO-compatible timestamp")];
    }
  }

  method ValidateVersion(kind: Kind, fields: Fields) returns (errors: seq<string>)
    ensures errors == VersionProblems(kind, fields)
  {
    errors := [];
    if TextAt(fields, SchemaVersion) != CONTRACT_VERSION {
      errors := errors + [MustBe(SchemaVersion, CONTRACT_VERSION)];
    }
    if TextAt(fields, MessageType) != MessageTypeOf(kind) {
      errors := errors + [MustBe(MessageType, MessageTypeOf(kind))];
    }
  }

  method RequireText(errors: seq<string>, fields: Fields, f: Field) returns (r: seq<string>)
    ensures r == Report(errors, Trim(TextAt(fields, f)) == "", Missing(f))
  {
    r := errors;
    if Trim(TextAt(fields, f)) == "" {
      r := r + [Missing(f)];
    }
  }

  method ValidateSizes(errors: seq<string>, fields: Fields) returns (r: seq<string>)
    ensures r == SizeProblems(errors, fields)
  {
    hide PositiveDecimalText, NotDecimal, TextAt;
    r := errors;
    var quantity, quote := TextAt(fields, Quantity), TextAt(fields, QuoteOrderQty);
    if TextAt(fields, OrderType) == "MARKET" {
      if quantity == "" && quote == "" {
        r := r + ["quantity or quoteOrderQty is required"];
      }
      if quantity != "" && quote != "" {
        r := r + ["quantity and quoteOrderQty are mutually exclusive"];
      }
      if quantity != "" && !PositiveDecimalText(quantity) {
        r := r + [NotDecimal(Quantity)];
      }
      if quote != "" && !PositiveDecimalText(quote) {
        r := r + [NotDecimal(QuoteOrderQty)];
      }
    } else {
      if !PositiveDecimalText(quantity) {
        r := r + [NotDecimal(Quantity)];
      }
      if quote != "" {
        r := r + ["quoteOrderQty is only supported for MARKET orders"];
      }
    }
  }

  method ValidatePrice(errors: seq<string>, text: string, required: bool, f: Field) returns (r: seq<string>)
    ensures r == Report(errors, BadPrice(text, required), NotDecimal(f))
  {
    r := errors;
    if !required && text == "" {
      return;
    }
    if !PositiveDecimalText(text) {
      r := r + [NotDecimal(f)];
    }
  }

  /**
    `validateOrderSubmitCommand`, `validateOrderCancelCommand` and `validateOrderCancelAllCommand` on
    input as it comes, normalised or not.
   */
  method ValidateCommand<M>(kind: Kind, env: Env<M>, input: Fields, metadata: Option<Json<M>>)
      returns (errors: seq<string>)
    ensures errors == Problems(kind, env, View(kind, env, input, metadata))
    ensures errors == [] <==> ContractValid(kind, env, View(kind, env, input, metadata))
  {
    hide View;
    var c := View(kind, env, input, metadata);
    hide HeaderProblems, SizeProblems, BadPrice, NotDecimal, MustBe, TextAt, ContractValid;
    hide IsSide, IsOrderType, IsTimeInForce, NeedsPrice, NeedsStopPrice, NeedsTimeInForce;
    ProblemsDecide(kind, env, c);
    errors := ValidateHeader(kind, env, c);
    if kind == Submit {
      var orderType, tif := TextAt(c.fields, OrderType), TextAt(c.fields, TimeInForce);
      if !IsSide(TextAt(c.fields, Side)) {
        errors := errors + [MustBe(Side, "one of BUY, SELL")];
      }
      if !IsOrderType(orderType) {
        errors := errors + [MustBe(OrderType, "one of the order types")];
      }
      errors := ValidateSizes(errors, c.fields);
      errors := ValidatePrice(errors, TextAt(c.fields, Price), NeedsPrice(orderType), Price);
      errors := ValidatePrice(errors, TextAt(c.fields, StopPrice), NeedsStopPrice(orderType), StopPrice);
      if NeedsTimeInForce(orderType) {
        if !IsTimeInForce(tif) {
          errors := errors + [MustBe(TimeInForce, "one of GTC, IOC, FOK")];
        }
      } else if tif != "" && !IsTimeInForce(tif) {
        errors := errors + [MustBe(TimeInForce, "one of GTC, IOC, FOK")];
      }
    }
    if !c.metadata.JsonObject? {
      errors := errors + [MustBe(Metadata, "an object when provided")];
    }
  }
}
