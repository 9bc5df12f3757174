/**
  The stream contract in plain terms: which fields a command of each kind has, what becomes of each of
  them, and which commands are valid.
 */
module ContractMeaning {
  import opened Wrappers
  import opened Text
  import opened Decimal
  import opened OrderTypes
  import opened StreamContracts

  /** The names of the three kinds on the stream. */
  lemma KindsAreNamed()
    ensures MessageTypeOf(Submit) == "order.submit.requested.v1"
    ensures MessageTypeOf(Cancel) == "order.cancel.requested.v1"
    ensures MessageTypeOf(CancelAll) == "order.cancel_all.requested.v1"
  {
  }

  /** The fields each kind has. */
  lemma FieldsAreListed(kind: Kind, f: Field)
    ensures f in {SchemaVersion, MessageType, CommandId, UserId, Symbol, RequestId, Source, CreatedAt} ==>
              f in FieldsOf(kind)
    ensures f == OrderId ==> (f in FieldsOf(kind) <==> kind != CancelAll)
    ensures f in {Side, OrderType, Quantity, QuoteOrderQty, Price, StopPrice, TimeInForce} ==>
              (f in FieldsOf(kind) <==> kind == Submit)
    ensures Metadata !in FieldsOf(kind)
  {
  }

  lemma NormalizedHas<M>(kind: Kind, env: Env<M>, input: Fields, metadata: Option<Json<M>>, f: Field)
    requires f in FieldsOf(kind)
    ensures var (fields, text) := (Normalize(kind, env, input, metadata).fields, NormalField(kind, env, input, f));
            (f in fields <==> text.Some?) && (f in fields ==> fields[f] == text.value)
  {
    hide NormalField, FieldsOf;
  }

  lemma ViewHas<M>(kind: Kind, env: Env<M>, input: Fields, metadata: Option<Json<M>>, f: Field)
    requires f in FieldsOf(kind)
    ensures var (fields, text) := (View(kind, env, input, metadata).fields, ViewField(kind, env, input, f));
            (f in fields <==> text.Some?) && (f in fields ==> fields[f] == text.value)
  {
    hide ViewField, FieldsOf;
  }

  lemma BlankIsEmpty()
    ensures Trim("") == ""
  {
  }

  /** What a normalised command has in a field, given the input's own text in that field. */
  lemma {:induction false} NormalizeMeans<M>(kind: Kind, env: Env<M>, input: Fields, metadata: Option<Json<M>>,
      f: Field)
    requires f in FieldsOf(kind)
    ensures var (fields, text) := (Normalize(kind, env, input, metadata).fields, Trim(TextAt(input, f)));
            && (f == SchemaVersion ==> f in fields && fields[f] == (if text != "" then text else "1"))
            && (f == MessageType ==> f in fields && fields[f] == (if text != "" then text else MessageTypeOf(kind)))
            && (f == Source ==> f in fields && fields[f] == (if text != "" then text else "backend"))
            && (f == CreatedAt ==> f in fields && fields[f] == (if text != "" then text else env.now))
            && (f in {Symbol, Side, OrderType, TimeInForce} ==>
                  (f in fields <==> f in input) && (f in fields ==> fields[f] == Upper(text)))
            && (f in {CommandId, OrderId, UserId, Quantity, QuoteOrderQty, Price, StopPrice, RequestId} ==>
                  (f in fields <==> f in input) && (f in fields ==> fields[f] == text))
  {
    BlankIsEmpty();
    NormalizedHas(kind, env, input, metadata, f);
    hide Trim, Upper, FieldsOf, MessageTypeOf, Normalize;
  }

  /** A missing or null metadata object counts as an empty one, and there are no fields besides the kind's own. */
  lemma NormalizedRest<M>(kind: Kind, env: Env<M>, input: Fields, metadata: Option<Json<M>>)
    ensures var c := Normalize(kind, env, input, metadata);
            && c.metadata == (if metadata.None? || metadata.value.JsonNull? then JsonObject(env.emptyObject)
                              else metadata.value)
            && forall f :: f in c.fields ==> f in FieldsOf(kind)
  {
    hide NormalField, FieldsOf;
  }

  /** Digits without a superfluous leading zero, possibly a dot and more digits, and a digit that is not zero. */
  lemma {:induction false} PositivePattern(s: string)
    ensures PositiveDecimalText(s) <==>
              && (exists i :: 0 <= i < |s| && '1' <= s[i] <= '9')
              && exists n: nat :: IsPattern(s, n)
  {
    if PositiveDecimalText(s) {
      assert IsPattern(s, DotAt(s)) by {
        assert forall i :: 0 <= i < DotAt(s) ==> s[i] == IntPart(s)[i];
        assert forall i :: DotAt(s) < i < |s| ==> s[i] == FracPart(s)[i - DotAt(s) - 1];
      }
    } else if exists n: nat :: IsPattern(s, n) {
      var n: nat :| IsPattern(s, n);
      PatternDot(s, n);
    }
  }

  /** The first n characters are the digits before the dot. */
  predicate IsPattern(s: string, n: nat) {
    && 1 <= n <= |s| && (n == 1 || s[0] != '0')
    && (forall i :: 0 <= i < n ==> '0' <= s[i] <= '9')
    && (n == |s| || (s[n] == '.' && n + 1 < |s|))
    && (forall i :: n < i < |s| ==> '0' <= s[i] <= '9')
  }

  lemma {:induction false} PatternDot(s: string, n: nat)
    requires IsPattern(s, n)
    ensures DotAt(s) == n && Plain(s) && CanonicalInt(IntPart(s))
  {
    var d := DotAt(s);
    assert d == n;
  }

  /** The sizing, pricing and time-in-force rules of a submit, type by type. */
  lemma {:induction false} RulesMean(fields: Fields)
    ensures var (typ, side, tif) := (TextAt(fields, OrderType), TextAt(fields, Side), TextAt(fields, TimeInForce));
            var (quantity, quote) := (TextAt(fields, Quantity), TextAt(fields, QuoteOrderQty));
            var (price, stop) := (TextAt(fields, Price), TextAt(fields, StopPrice));
            SubmitRules(fields) <==>
              && side in ["BUY", "SELL"]
              && typ in ["MARKET", "LIMIT", "STOP_LOSS", "STOP_LOSS_LIMIT", "TAKE_PROFIT", "TAKE_PROFIT_LIMIT",
                   "LIMIT_MAKER"]
              && (if quote == "" then PositiveDecimalText(quantity)
                  else typ == "MARKET" && quantity == "" && PositiveDecimalText(quote))
              && (if typ in ["LIMIT", "STOP_LOSS_LIMIT", "TAKE_PROFIT_LIMIT", "LIMIT_MAKER"]
                  then PositiveDecimalText(price) else price == "" || PositiveDecimalText(price))
              && (if typ in ["STOP_LOSS", "STOP_LOSS_LIMIT", "TAKE_PROFIT", "TAKE_PROFIT_LIMIT"]
                  then PositiveDecimalText(stop) else stop == "" || PositiveDecimalText(stop))
              && (if typ in ["LIMIT", "STOP_LOSS_LIMIT", "TAKE_PROFIT_LIMIT"] then tif in ["GTC", "IOC", "FOK"]
                  else tif == "" || tif in ["GTC", "IOC", "FOK"])
  {
    TypesNeed(TextAt(fields, OrderType));
    hide PositiveDecimalText, TextAt, NeedsPrice, NeedsStopPrice, NeedsTimeInForce;
  }

  /**
    No problem is reported exactly if the command names its version, kind, ids, symbol and time, and
    follows the rules.
   */
  lemma {:induction false} ContractMeans<M>(kind: Kind, env: Env<M>, c: Command<M>)
    ensures Problems(kind, env, c) == [] <==>
              && TextAt(c.fields, SchemaVersion) == "1"
              && TextAt(c.fields, MessageType) == MessageTypeOf(kind)
              && Trim(TextAt(c.fields, CommandId)) != ""
              && (kind != CancelAll ==> Trim(TextAt(c.fields, OrderId)) != "")
              && Trim(TextAt(c.fields, UserId)) != "" && Trim(TextAt(c.fields, Symbol)) != ""
              && Trim(TextAt(c.fields, CreatedAt)) != "" && env.isTimestamp(TextAt(c.fields, CreatedAt))
              && (kind == Submit ==> SubmitRules(c.fields))
              && c.metadata.JsonObject?
  {
    ProblemsDecide(kind, env, c);
    hide Problems, SubmitRules, Trim, TextAt, MessageTypeOf;
  }

  /** A command can be built exactly if it is valid once normalised, and then its entry keeps its non-empty fields. */
  lemma {:induction false} BuildDecides<M>(kind: Kind, env: Env<M>, input: Fields, metadata: Option<Json<M>>)
    ensures var (built, c) := (Build(kind, env, input, metadata), Normalize(kind, env, input, metadata));
            && (built.Ok? <==> Problems(kind, env, c) == [])
            && (built.Ok? ==> forall f :: f != Metadata ==>
                  && (f in built.value <==> TextAt(c.fields, f) != "")
                  && (f in built.value ==> built.value[f] == c.fields[f]))
  {
    ProblemsDecide(kind, env, Normalize(kind, env, input, metadata));
    hide Problems, Normalize, ContractValid;
  }

  /** An entry parses as a kind exactly if its metadata is JSON and it is valid once normalised. */
  lemma ParseDecides<M>(kind: Kind, env: Env<M>, entry: Fields)
    ensures var (parsed, text) := (Parse(kind, env, entry), TextAt(entry, Metadata));
            var metadata := if text == "" then Some(JsonObject(env.emptyObject)) else env.parse(text);
            && (parsed.Ok? <==>
                  metadata.Some? && Problems(kind, env, Normalize(kind, env, entry, metadata)) == [])
            && (parsed.Ok? ==> parsed.value == Normalize(kind, env, entry, metadata))
  {
    hide Problems, Normalize;
  }

  /** What the validators look at of a raw field. */
  lemma {:induction false} ViewMeans<M>(kind: Kind, env: Env<M>, input: Fields, metadata: Option<Json<M>>, f: Field)
    requires f in FieldsOf(kind)
    ensures var (fields, text) := (View(kind, env, input, metadata).fields, TextAt(input, f));
            && (f == SchemaVersion ==> f in fields && fields[f] == (if Trim(text) != "" then Trim(text) else "1"))
            && (f == MessageType ==>
                  f in fields && fields[f] == (if Trim(text) != "" then Trim(text) else MessageTypeOf(kind)))
            && (f in {Side, OrderType} ==>
                  (f in fields <==> f in input) && (f in fields ==> fields[f] == Upper(Trim(text))))
            && (f in {Price, StopPrice} ==>
                  (f in fields <==> f in input) && (f in fields ==> fields[f] == Trim(text)))
            && (f in {CommandId, OrderId, UserId, Symbol, Quantity, QuoteOrderQty, CreatedAt} ==>
                  (f in fields <==> f in input) && (f in fields ==> fields[f] == text))
            && (f == TimeInForce ==>
                  && (f in fields <==> f in input)
                  && (f in fields ==> fields[f] == (if Upper(Trim(text)) == "" then text else Upper(Trim(text)))))
  {
    BlankIsEmpty();
    ViewHas(kind, env, input, metadata, f);
    hide Trim, Upper, FieldsOf, MessageTypeOf, View;
  }
}
