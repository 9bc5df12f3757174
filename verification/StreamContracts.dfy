/**
  The order-command stream contract: normalising, validating, building and parsing the entries of
  the three command kinds, the dispatcher that chooses a parser, and the dead-letter entry.
 */
module StreamContracts {
  import opened Wrappers
  import opened Text
  import opened Decimal
  import opened OrderTypes

  datatype Field =
    | SchemaVersion | MessageType | CommandId | OrderId | UserId | Symbol | Side | OrderType
    | Quantity | QuoteOrderQty | Price | StopPrice | TimeInForce | RequestId | Source | CreatedAt | Metadata

  /** The string-valued properties of a command or the fields of a stream entry; the rest is absent. */
  type Fields = map<Field, string>

  datatype Kind = Submit | Cancel | CancelAll

  /** What a metadata text parses to. */
  datatype Json<+M> = JsonNull | JsonObject(body: M) | JsonOther

  /** The clock, the date parser and the JSON codec, none of which belong to the contract package. */
  datatype Env<!M> = Env(
    now: string, isTimestamp: string -> bool, emptyObject: M, stringify: M -> string, parse: string -> Option<Json<M>>)

  datatype Command<+M> = Command(fields: Fields, metadata: Json<M>)

  /** Serialised objects are not empty and parse back to themselves; the clock yields a timestamp. */
  ghost predicate Sound<M(!new)>(env: Env<M>) {
    && (forall m :: env.stringify(m) != "" && env.parse(env.stringify(m)) == Some(JsonObject(m)))
    && env.now != "" && Trimmed(env.now) && env.isTimestamp(env.now)
  }

  /** The part of it that concerns the clock. */
  predicate ClockWorks<M>(env: Env<M>) {
    Trim(env.now) != "" && env.isTimestamp(env.now)
  }

  lemma SoundClockWorks<M(!new)>(env: Env<M>)
    requires Sound(env)
    ensures ClockWorks(env)
  {
    TrimIsProjection(env.now);
  }

  /** Such environments exist. */
  lemma SoundIsPossible()
    ensures Sound(Env("0", s => true, (), m => "{}", s => Some(JsonObject(()))))
  {
    var env := Env("0", s => true, (), m => "{}", s => Some(JsonObject(())));
    assert env.now[0] == '0' && !IsSpace('0');
    forall m: ()
      ensures env.stringify(m) != "" && env.parse(env.stringify(m)) == Some(JsonObject(m))
    {
      assert env.stringify(m) == "{}" && m == ();
    }
  }

  // ---------- field access ----------

  function FieldsOf(kind: Kind): set<Field> {
    match kind
    case Submit =>
      {SchemaVersion, MessageType, CommandId, OrderId, UserId, Symbol, Side, OrderType, Quantity, QuoteOrderQty,
       Price, StopPrice, TimeInForce, RequestId, Source, CreatedAt}
    case Cancel =>
      {SchemaVersion, MessageType, CommandId, OrderId, UserId, Symbol, RequestId, Source, CreatedAt}
    case CancelAll =>
      {SchemaVersion, MessageType, CommandId, UserId, Symbol, RequestId, Source, CreatedAt}
  }

  function MessageTypeOf(kind: Kind): string {
    match kind
    case Submit => "order.submit.requested.v1"
    case Cancel => "order.cancel.requested.v1"
    case CancelAll => "order.cancel_all.requested.v1"
  }

  const CONTRACT_VERSION := "1"

  /** A field's text, empty when absent: no check of the contract tells the two apart. */
  function TextAt(fields: Fields, f: Field): string {
    if f in fields then fields[f] else ""
  }

  function OptionalAt(fields: Fields, f: Field): Option<string> {
    if f in fields then Some(Trim(fields[f])) else None
  }

  function TokenAt(fields: Fields, f: Field): Option<string> {
    if f in fields then Some(Token(fields[f])) else None
  }

  function DefaultAt(fields: Fields, f: Field, default: string): Option<string> {
    if Trim(TextAt(fields, f)) != "" then Some(Trim(fields[f])) else Some(default)
  }

  // ---------- normalising ----------

  function NormalField<M>(kind: Kind, env: Env<M>, input: Fields, f: Field): Option<string> {
    match f
    case SchemaVersion => DefaultAt(input, f, CONTRACT_VERSION)
    case MessageType => DefaultAt(input, f, MessageTypeOf(kind))
    case Source => DefaultAt(input, f, "backend")
    case CreatedAt => DefaultAt(input, f, env.now)
    case Symbol => TokenAt(input, f)
    case Side => TokenAt(input, f)
    case OrderType => TokenAt(input, f)
    case TimeInForce => TokenAt(input, f)
    case _ => OptionalAt(input, f)
  }

  function Normalize<M>(kind: Kind, env: Env<M>, input: Fields, metadata: Option<Json<M>>): Command<M> {
    Command(
      map f | f in FieldsOf(kind) && NormalField(kind, env, input, f).Some? :: NormalField(kind, env, input, f).value,
      if metadata.None? || metadata.value.JsonNull? then JsonObject(env.emptyObject) else metadata.value)
  }

  // ---------- validating ----------

  function Report(errors: seq<string>, condition: bool, message: string): seq<string> {
    if condition then errors + [message] else errors
  }

  function NameOf(f: Field): string {
    match f
    case SchemaVersion => "schemaVersion"
    case MessageType => "messageType"
    case CommandId => "commandId"
    case OrderId => "orderId"
    case UserId => "userId"
    case Symbol => "symbol"
    case Side => "side"
    case OrderType => "orderType"
    case Quantity => "quantity"
    case QuoteOrderQty => "quoteOrderQty"
    case Price => "price"
    case StopPrice => "stopPrice"
    case TimeInForce => "timeInForce"
    case RequestId => "requestId"
    case Source => "source"
    case CreatedAt => "createdAt"
    case Metadata => "metadata"
  }

  function Missing(f: Field): string { NameOf(f) + " is required" }
  function NotDecimal(f: Field): string { NameOf(f) + " must be a positive decimal string" }
  function MustBe(f: Field, what: string): string { NameOf(f) + " must be " + what }

  predicate IsSide(s: string) { s in ["BUY", "SELL"] }

  predicate IsOrderType(s: string) {
    s in ["MARKET", "LIMIT", "STOP_LOSS", "STOP_LOSS_LIMIT", "TAKE_PROFIT", "TAKE_PROFIT_LIMIT", "LIMIT_MAKER"]
  }

  predicate IsTimeInForce(s: string) { s in ["GTC", "IOC", "FOK"] }

  /** The contract's decimal pattern (no superfluous leading zero) with at least one digit from 1 to 9. */
  predicate PositiveDecimalText(s: string) {
    Plain(s) && CanonicalInt(IntPart(s)) && exists i :: 0 <= i < |s| && '1' <= s[i] <= '9'
  }

  function VersionProblems(kind: Kind, fields: Fields): seq<string> {
    var e1 := Report([], TextAt(fields, SchemaVersion) != CONTRACT_VERSION, MustBe(SchemaVersion, CONTRACT_VERSION));
    Report(e1, TextAt(fields, MessageType) != MessageTypeOf(kind), MustBe(MessageType, MessageTypeOf(kind)))
  }

  function HeaderProblems<M>(kind: Kind, env: Env<M>, c: Command<M>): seq<string> {
    var e2 := VersionProblems(kind, c.fields);
    var e3 := Report(e2, Trim(TextAt(c.fields, CommandId)) == "", Missing(CommandId));
    var e4 := Report(e3, kind != CancelAll && Trim(TextAt(c.fields, OrderId)) == "", Missing(OrderId));
    var e5 := Report(e4, Trim(TextAt(c.fields, UserId)) == "", Missing(UserId));
    var e6 := Report(e5, Trim(TextAt(c.fields, Symbol)) == "", Missing(Symbol));
    var e7 := Report(e6, Trim(TextAt(c.fields, CreatedAt)) == "", Missing(CreatedAt));
    Report(e7, CreatedAt in c.fields && !env.isTimestamp(c.fields[CreatedAt]),
           MustBe(CreatedAt, "an ISO-compatible timestamp"))
  }

  function SizeProblems(errors: seq<string>, fields: Fields): seq<string> {
    var (quantity, quote) := (TextAt(fields, Quantity), TextAt(fields, QuoteOrderQty));
    if TextAt(fields, OrderType) == "MARKET" then
      var e1 := Report(errors, quantity == "" && quote == "", "quantity or quoteOrderQty is required");
      var e2 := Report(e1, quantity != "" && quote != "", "quantity and quoteOrderQty are mutually exclusive");
      var e3 := Report(e2, quantity != "" && !PositiveDecimalText(quantity), NotDecimal(Quantity));
      Report(e3, quote != "" && !PositiveDecimalText(quote), NotDecimal(QuoteOrderQty))
    else
      var e1 := Report(errors, !PositiveDecimalText(quantity), NotDecimal(Quantity));
      Report(e1, quote != "", "quoteOrderQty is only supported for MARKET orders")
  }

  predicate BadPrice(text: string, required: bool) {
    (required || text != "") && !PositiveDecimalText(text)
  }

  function SubmitProblems(errors: seq<string>, fields: Fields): seq<string> {
    var (orderType, tif) := (TextAt(fields, OrderType), TextAt(fields, TimeInForce));
    var e1 := Report(errors, !IsSide(TextAt(fields, Side)), MustBe(Side, "one of BUY, SELL"));
    var e2 := Report(e1, !IsOrderType(orderType), MustBe(OrderType, "one of the order types"));
    var e3 := SizeProblems(e2, fields);
    var e4 := Report(e3, BadPrice(TextAt(fields, Price), NeedsPrice(orderType)), NotDecimal(Price));
    var e5 := Report(e4, BadPrice(TextAt(fields, StopPrice), NeedsStopPrice(orderType)), NotDecimal(StopPrice));
    Report(e5, (NeedsTimeInForce(orderType) || tif != "")
        && !IsTimeInForce(tif), MustBe(TimeInForce, "one of GTC, IOC, FOK"))
  }

  /** The messages of `validateOrderSubmitCommand` and its two siblings on a normalised command. */
  function Problems<M>(kind: Kind, env: Env<M>, c: Command<M>): seq<string> {
    var header := HeaderProblems(kind, env, c);
    var body := if kind == Submit then SubmitProblems(header, c.fields) else header;
    Report(body, !c.metadata.JsonObject?, MustBe(Metadata, "an object when provided"))
  }

  /** The sizing, pricing and time-in-force rules, as the contract document states them. */
  predicate SubmitRules(fields: Fields) {
    var (orderType, tif) := (TextAt(fields, OrderType), TextAt(fields, TimeInForce));
    var (quantity, quote) := (TextAt(fields, Quantity), TextAt(fields, QuoteOrderQty));
    && IsSide(TextAt(fields, Side))
    && IsOrderType(orderType)
    && (if quote == "" then PositiveDecimalText(quantity)
        else orderType == "MARKET" && quantity == "" && PositiveDecimalText(quote))
    && (NeedsPrice(orderType) || TextAt(fields, Price) != "" ==> PositiveDecimalText(TextAt(fields, Price)))
    && (NeedsStopPrice(orderType) || TextAt(fields, StopPrice) != "" ==> PositiveDecimalText(TextAt(fields, StopPrice)))
    && (NeedsTimeInForce(orderType) || tif != "" ==> IsTimeInForce(tif))
  }

  predicate ContractValid<M>(kind: Kind, env: Env<M>, c: Command<M>) {
    && TextAt(c.fields, SchemaVersion) == CONTRACT_VERSION
    && TextAt(c.fields, MessageType) == MessageTypeOf(kind)
    && Trim(TextAt(c.fields, CommandId)) != ""
    && (kind != CancelAll ==> Trim(TextAt(c.fields, OrderId)) != "")
    && Trim(TextAt(c.fields, UserId)) != ""
    && Trim(TextAt(c.fields, Symbol)) != ""
    && Trim(TextAt(c.fields, CreatedAt)) != "" && env.isTimestamp(TextAt(c.fields, CreatedAt))
    && (kind == Submit ==> SubmitRules(c.fields))
    && c.metadata.JsonObject?
  }

  lemma EmptyIsNotDecimal()
    ensures !PositiveDecimalText("")
  {
  }

  lemma SubmitProblemsDecide(errors: seq<string>, fields: Fields)
    ensures SubmitProblems(errors, fields) == [] <==> errors == [] && SubmitRules(fields)
  {
    hide PositiveDecimalText, IsSide, IsOrderType, IsTimeInForce, NeedsPrice, NeedsStopPrice, NeedsTimeInForce;
    hide MustBe, NotDecimal, TextAt;
    EmptyIsNotDecimal();
  }

  lemma HeaderProblemsDecide<M>(kind: Kind, env: Env<M>, c: Command<M>)
    ensures HeaderProblems(kind, env, c) == [] <==>
            && TextAt(c.fields, SchemaVersion) == CONTRACT_VERSION
            && TextAt(c.fields, MessageType) == MessageTypeOf(kind)
            && Trim(TextAt(c.fields, CommandId)) != ""
            && (kind != CancelAll ==> Trim(TextAt(c.fields, OrderId)) != "")
            && Trim(TextAt(c.fields, UserId)) != ""
            && Trim(TextAt(c.fields, Symbol)) != ""
            && Trim(TextAt(c.fields, CreatedAt)) != "" && env.isTimestamp(TextAt(c.fields, CreatedAt))
  {
    hide Missing, MustBe, MessageTypeOf;
    assert Trim("") == "";
    hide Trim;
  }

  /** No message is reported exactly when the command meets the contract. */
  lemma {:induction false} ProblemsDecide<M>(kind: Kind, env: Env<M>, c: Command<M>)
    ensures Problems(kind, env, c) == [] <==> ContractValid(kind, env, c)
  {
    hide HeaderProblems, SubmitProblems, SubmitRules, MustBe, MessageTypeOf, Trim, TextAt;
    HeaderProblemsDecide(kind, env, c);
    SubmitProblemsDecide(HeaderProblems(kind, env, c), c.fields);
  }

  // ---------- validating raw input ----------

  /**
    What the validators look at of a field: some are defaulted, trimmed or made tokens first, the
    rest are taken as they are.
   */
  function ViewField<M>(kind: Kind, env: Env<M>, input: Fields, f: Field): Option<string> {
    match f
    case SchemaVersion => DefaultAt(input, f, CONTRACT_VERSION)
    case MessageType => DefaultAt(input, f, MessageTypeOf(kind))
    case Side => TokenAt(input, f)
    case OrderType => TokenAt(input, f)
    case Price => OptionalAt(input, f)
    case StopPrice => OptionalAt(input, f)
    case TimeInForce => if f in input && Token(input[f]) == "" then Some(input[f]) else TokenAt(input, f)
    case _ => if f in input then Some(input[f]) else None
  }

  /** A missing metadata object is fine, a null one is not. */
  function View<M>(kind: Kind, env: Env<M>, input: Fields, metadata: Option<Json<M>>): Command<M> {
    Command(
      map f | f in FieldsOf(kind) && ViewField(kind, env, input, f).Some? :: ViewField(kind, env, input, f).value,
      metadata.GetOr(JsonObject(env.emptyObject)))
  }

  lemma NormalFieldIsViewedAsIs<M(!new)>(kind: Kind, env: Env<M>, input: Fields, fields: Fields, f: Field)
    requires Sound(env) && f in FieldsOf(kind)
    requires var text := NormalField(kind, env, input, f);
             if text.Some? then f in fields && fields[f] == text.value else f !in fields
    ensures ViewField(kind, env, fields, f) == NormalField(kind, env, input, f)
  {
    hide NormalField, Trim, Token, MessageTypeOf, FieldsOf, Sound;
    NormalFieldIsNormal(kind, env, input, f);
  }

  /** Of a normalised command the validators look at the command itself. */
  lemma NormalizedIsViewedAsIs<M(!new)>(kind: Kind, env: Env<M>, input: Fields, metadata: Option<Json<M>>)
    requires Sound(env)
    ensures var c := Normalize(kind, env, input, metadata);
            View(kind, env, c.fields, Some(c.metadata)) == c
  {
    hide NormalField, ViewField, FieldsOf, Sound;
    var c := Normalize(kind, env, input, metadata);
    forall f | f in FieldsOf(kind)
      ensures ViewField(kind, env, c.fields, f) == NormalField(kind, env, input, f)
    {
      NormalFieldIsViewedAsIs(kind, env, input, c.fields, f);
    }
    assert View(kind, env, c.fields, Some(c.metadata)).fields == c.fields;
  }

  // ---------- building and parsing ----------

  function OmitEmpty(fields: Fields): Fields {
    map f | f in fields && fields[f] != "" :: fields[f]
  }

  function Build<M>(kind: Kind, env: Env<M>, input: Fields, metadata: Option<Json<M>>): Result<Fields> {
    var c := Normalize(kind, env, input, metadata);
    var problems := Problems(kind, env, c);
    if problems != [] then Err(problems[0])
    else
      ProblemsDecide(kind, env, c);
      Ok(OmitEmpty(c.fields[Metadata := env.stringify(c.metadata.body)]))
  }

  function ParseMetadata<M>(env: Env<M>, entry: Fields): Result<Json<M>> {
    if TextAt(entry, Metadata) == "" then Ok(JsonObject(env.emptyObject))
    else
      match env.parse(entry[Metadata])
      case None => Err("Redis stream entry metadata must be valid JSON")
      case Some(json) => Ok(json)
  }

  function Parse<M>(kind: Kind, env: Env<M>, entry: Fields): Result<Command<M>> {
    var metadata :- ParseMetadata(env, entry);
    var c := Normalize(kind, env, entry, Some(metadata));
    var problems := Problems(kind, env, c);
    if problems != [] then Err(problems[0]) else Ok(c)
  }

  function ParseOrderCommand<M>(env: Env<M>, entry: Fields): Result<Command<M>> {
    var messageType := DefaultAt(entry, MessageType, MessageTypeOf(Submit)).value;
    if messageType == MessageTypeOf(Submit) then Parse(Submit, env, entry)
    else if messageType == MessageTypeOf(Cancel) then Parse(Cancel, env, entry)
    else if messageType == MessageTypeOf(CancelAll) then Parse(CancelAll, env, entry)
    else Err("Unsupported order command messageType: " + messageType)
  }

  // ---------- the round trip ----------

  function WithoutEmpty<M>(c: Command<M>): Command<M> {
    c.(fields := OmitEmpty(c.fields))
  }

  predicate IsTokenField(f: Field) {
    f == Symbol || f == Side || f == OrderType || f == TimeInForce
  }

  predicate HasDefault(f: Field) {
    f == SchemaVersion || f == MessageType || f == Source || f == CreatedAt
  }

  /** Normal text for a field: trimmed, upper case where the field is a token, never empty where there is a default. */
  predicate IsNormal(f: Field, text: string) {
    Trim(text) == text && (IsTokenField(f) ==> Token(text) == text) && (HasDefault(f) ==> text != "")
  }

  lemma DefaultsAreTrimmed(kind: Kind)
    ensures Trim(CONTRACT_VERSION) == CONTRACT_VERSION && Trim("backend") == "backend"
    ensures MessageTypeOf(kind) != "" && Trim(MessageTypeOf(kind)) == MessageTypeOf(kind)
  {
    hide Trim;
    NothingToTrim(CONTRACT_VERSION);
    NothingToTrim("backend");
    NothingToTrim(MessageTypeOf(kind));
  }

  lemma DefaultIsNormal(fields: Fields, f: Field, default: string)
    requires default != "" && Trim(default) == default && !IsTokenField(f)
    ensures IsNormal(f, DefaultAt(fields, f, default).value)
  {
    TrimIsProjection(TextAt(fields, f));
    assert Trim("") == "";
    hide Trim, Trimmed, Token;
  }

  lemma {:induction false} NormalFieldIsNormal<M(!new)>(kind: Kind, env: Env<M>, input: Fields, f: Field)
    requires Sound(env)
    ensures NormalField(kind, env, input, f).Some? ==> IsNormal(f, NormalField(kind, env, input, f).value)
    ensures HasDefault(f) ==> NormalField(kind, env, input, f).Some?
  {
    TrimIsProjection(env.now);
    TrimIsProjection(TextAt(input, f));
    TokenIsProjection(TextAt(input, f));
    hide Trim, Token, Trimmed, MessageTypeOf, IsNormal;
    DefaultsAreTrimmed(kind);
    match f {
      case SchemaVersion => DefaultIsNormal(input, f, CONTRACT_VERSION);
      case MessageType => DefaultIsNormal(input, f, MessageTypeOf(kind));
      case Source => DefaultIsNormal(input, f, "backend");
      case CreatedAt => DefaultIsNormal(input, f, env.now);
      case _ => TextIsNormal(input, f);
    }
  }

  lemma {:induction false} TextIsNormal(input: Fields, f: Field)
    requires !HasDefault(f)
    ensures IsTokenField(f) && f in input ==> IsNormal(f, TokenAt(input, f).value)
    ensures !IsTokenField(f) && f in input ==> IsNormal(f, OptionalAt(input, f).value)
  {
    TrimIsProjection(TextAt(input, f));
    TokenIsProjection(TextAt(input, f));
    hide Trim, Token, Trimmed;
  }

  /** A normal, non-empty text is normalised to itself, whatever the time of day. */
  lemma NormalIsStable<M>(kind: Kind, env: Env<M>, fields: Fields, f: Field)
    requires f in fields && fields[f] != "" && IsNormal(f, fields[f])
    ensures NormalField(kind, env, fields, f) == Some(fields[f])
  {
    hide Trim, Token, MessageTypeOf;
  }

  lemma AbsentStaysAbsent<M>(kind: Kind, env: Env<M>, fields: Fields, f: Field)
    requires f !in fields && !HasDefault(f)
    ensures NormalField(kind, env, fields, f) == None
  {
  }

  /** Besides the metadata, entry holds exactly the non-empty fields of the command. */
  predicate Keeps(entry: Fields, normal: Fields) {
    forall f :: f != Metadata ==>
      (f in entry <==> TextAt(normal, f) != "") && (f in entry ==> entry[f] == TextAt(normal, f))
  }

  lemma NoMetadataField(kind: Kind)
    ensures Metadata !in FieldsOf(kind)
  {
  }

  lemma {:induction false} KeptFieldIsStable<M(!new)>(kind: Kind, env: Env<M>, later: string, input: Fields,
      entry: Fields, f: Field)
    requires Sound(env)
    requires var normal := NormalField(kind, env, input, f);
             if f in entry then normal == Some(entry[f]) && entry[f] != "" else normal.GetOr("") == ""
    ensures NormalField(kind, env.(now := later), entry, f) == if f in entry then Some(entry[f]) else None
  {
    hide NormalField, IsNormal, HasDefault;
    NormalFieldIsNormal(kind, env, input, f);
    if f in entry {
      NormalIsStable(kind, env.(now := later), entry, f);
    } else {
      if HasDefault(f) {
        DefaultIsNotEmpty(kind, env, input, f);
      }
      AbsentStaysAbsent(kind, env.(now := later), entry, f);
    }
  }

  lemma {:induction false} DefaultIsNotEmpty<M(!new)>(kind: Kind, env: Env<M>, input: Fields, f: Field)
    requires Sound(env) && HasDefault(f)
    ensures NormalField(kind, env, input, f).Some? && NormalField(kind, env, input, f).value != ""
  {
    NormalFieldIsNormal(kind, env, input, f);
    hide Trim, Token, NormalField;
  }

  /** Normalising what an entry kept, at any later time, gives the normalised command without its empty fields. */
  lemma {:induction false} NormalizeIsStable<M(!new)>(
    kind: Kind, env: Env<M>, later: string, input: Fields, metadata: Option<Json<M>>, entry: Fields,
        metadata': Option<Json<M>>)
    requires Sound(env)
    requires Keeps(entry, Normalize(kind, env, input, metadata).fields)
    ensures Normalize(kind, env.(now := later), entry, metadata').fields ==
            OmitEmpty(Normalize(kind, env, input, metadata).fields)
    ensures metadata'.Some? && metadata'.value.JsonObject? ==>
              Normalize(kind, env.(now := later), entry, metadata').metadata == metadata'.value
  {
    hide NormalField, FieldsOf, Sound;
    NoMetadataField(kind);
    forall f | f in FieldsOf(kind)
      ensures NormalField(kind, env.(now := later), entry, f) == if f in entry then Some(entry[f]) else None
    {
      KeptFieldIsStable(kind, env, later, input, entry, f);
    }
  }

  lemma OmitEmptyKeepsText(fields: Fields, f: Field)
    ensures TextAt(OmitEmpty(fields), f) == TextAt(fields, f)
  {
  }

  lemma RulesReadTextOnly(fields: Fields, other: Fields)
    requires SubmitRules(fields) && forall f :: TextAt(other, f) == TextAt(fields, f)
    ensures SubmitRules(other)
  {
    hide TextAt, IsSide, IsOrderType, PositiveDecimalText, NeedsPrice, NeedsStopPrice, NeedsTimeInForce, IsTimeInForce;
  }

  lemma {:induction false} ContractIgnoresEmptyFields<M>(kind: Kind, env: Env<M>, later: string, c: Command<M>)
    requires ContractValid(kind, env, c)
    ensures ContractValid(kind, env.(now := later), WithoutEmpty(c))
  {
    hide TextAt, OmitEmpty, SubmitRules, Trim, MessageTypeOf;
    forall f
      ensures TextAt(OmitEmpty(c.fields), f) == TextAt(c.fields, f)
    {
      OmitEmptyKeepsText(c.fields, f);
    }
    if kind == Submit {
      RulesReadTextOnly(c.fields, OmitEmpty(c.fields));
    }
  }

  lemma {:induction false} BuildSucceeds<M(!new)>(kind: Kind, env: Env<M>, input: Fields, metadata: Option<Json<M>>)
    requires Build(kind, env, input, metadata).Ok?
    ensures var c := Normalize(kind, env, input, metadata);
            ContractValid(kind, env, c) && c.metadata.JsonObject? &&
            Build(kind, env, input, metadata).value == OmitEmpty(c.fields[Metadata := env.stringify(c.metadata.body)])
  {
    hide Problems, Normalize, SubmitRules, OmitEmpty, Trim, MessageTypeOf;
    ProblemsDecide(kind, env, Normalize(kind, env, input, metadata));
  }

  lemma EntryKeeps(fields: Fields, metadata: string)
    requires metadata != ""
    ensures var entry := OmitEmpty(fields[Metadata := metadata]);
            Keeps(entry, fields) && Metadata in entry && entry[Metadata] == metadata
  {
  }

  lemma {:induction false} BuiltEntryKeeps<M(!new)>(kind: Kind, env: Env<M>, input: Fields, metadata: Option<Json<M>>)
    requires Sound(env) && Build(kind, env, input, metadata).Ok?
    ensures var (c, entry) := (Normalize(kind, env, input, metadata), Build(kind, env, input, metadata).value);
            && ContractValid(kind, env, c) && c.metadata.JsonObject?
            && Keeps(entry, c.fields)
            && ParseMetadata(env, entry) == Ok(c.metadata)
            && TextAt(entry, MessageType) == MessageTypeOf(kind)
  {
    hide Normalize, OmitEmpty, Build, MessageTypeOf, SubmitRules, Trim;
    BuildSucceeds(kind, env, input, metadata);
    var c := Normalize(kind, env, input, metadata);
    EntryKeeps(c.fields, env.stringify(c.metadata.body));
    MessageTypeIsText(kind);
  }

  lemma MessageTypeIsText(kind: Kind)
    ensures MessageTypeOf(kind) != ""
  {
  }

  /**
    Parsing what was built, at any later time, yields the normalised command without its empty
    fields; the dispatcher finds the same parser by the entry's own message type.
   */
  lemma {:induction false} ParseInvertsBuild<M(!new)>(kind: Kind, env: Env<M>, later: string, input: Fields,
      metadata: Option<Json<M>>)
    requires Sound(env) && Build(kind, env, input, metadata).Ok?
    ensures var entry := Build(kind, env, input, metadata).value;
            var c := WithoutEmpty(Normalize(kind, env, input, metadata));
            Parse(kind, env.(now := later), entry) == Ok(c) && ParseOrderCommand(env.(now := later), entry) == Ok(c)
  {
    hide Normalize, Problems, ContractValid, OmitEmpty, Keeps, Sound, Build, MessageTypeOf, ParseOrderCommand;
    hide ParseMetadata, Trim;
    var (c, entry) := (Normalize(kind, env, input, metadata), Build(kind, env, input, metadata).value);
    BuiltEntryKeeps(kind, env, input, metadata);
    NormalizeIsStable(kind, env, later, input, metadata, entry, Some(c.metadata));
    ContractIgnoresEmptyFields(kind, env, later, c);
    ProblemsDecide(kind, env.(now := later), WithoutEmpty(c));
    ParseMetadataIgnoresTime(env, later, entry);
    DefaultsAreTrimmed(kind);
    DispatcherChooses(env.(now := later), entry, kind);
  }

  lemma ParseMetadataIgnoresTime<M>(env: Env<M>, later: string, entry: Fields)
    ensures ParseMetadata(env.(now := later), entry) == ParseMetadata(env, entry)
  {
  }

  lemma MessageTypesDiffer()
    ensures MessageTypeOf(Submit) != MessageTypeOf(Cancel) && MessageTypeOf(Submit) != MessageTypeOf(CancelAll)
    ensures MessageTypeOf(Cancel) != MessageTypeOf(CancelAll)
  {
    assert MessageTypeOf(Submit)[6] != MessageTypeOf(Cancel)[6];
  }

  lemma DefaultOf(fields: Fields, f: Field, default: string)
    ensures DefaultAt(fields, f, default) ==
        Some(if Trim(TextAt(fields, f)) == "" then default else Trim(TextAt(fields, f)))
  {
    assert Trim("") == "";
    hide Trim;
  }

  /** The named kind's own parser decides; a missing name means submit. */
  lemma DispatcherChooses<M>(env: Env<M>, entry: Fields, kind: Kind)
    requires Trim(TextAt(entry, MessageType)) == MessageTypeOf(kind) ||
             (kind == Submit && Trim(TextAt(entry, MessageType)) == "")
    ensures ParseOrderCommand(env, entry) == Parse(kind, env, entry)
  {
    hide Parse, Trim, TextAt, DefaultAt, MessageTypeOf;
    MessageTypeIsText(kind);
    MessageTypesDiffer();
    DefaultOf(entry, MessageType, MessageTypeOf(Submit));
  }

  /** Everything the dispatcher returns meets the contract of the kind its message type names. */
  lemma {:induction false} DispatchedIsValid<M>(env: Env<M>, entry: Fields)
    requires ParseOrderCommand(env, entry).Ok?
    ensures exists kind :: Parse(kind, env, entry) == ParseOrderCommand(env, entry) &&
                           ContractValid(kind, env, ParseOrderCommand(env, entry).value)
  {
    hide Problems, ContractValid, Normalize, MessageTypeOf, ParseMetadata, DefaultAt;
    var kind :| Parse(kind, env, entry) == ParseOrderCommand(env, entry);
    ProblemsDecide(kind, env, Parse(kind, env, entry).value);
  }

  /** Building again from the parsed command gives the same entry. */
  lemma {:induction false} RebuildGivesSameEntry<M(!new)>(kind: Kind, env: Env<M>, later: string, input: Fields,
      metadata: Option<Json<M>>)
    requires Sound(env) && Build(kind, env, input, metadata).Ok?
    ensures var c := WithoutEmpty(Normalize(kind, env, input, metadata));
            Build(kind, env.(now := later), c.fields, Some(c.metadata)) == Build(kind, env, input, metadata)
  {
    hide Normalize, Problems, ContractValid, Sound, MessageTypeOf, ParseMetadata, Keeps;
    var c := Normalize(kind, env, input, metadata);
    BuildSucceeds(kind, env, input, metadata);
    OmitEmptyKeeps(c.fields);
    NormalizeIsStable(kind, env, later, input, metadata, OmitEmpty(c.fields), Some(c.metadata));
    ContractIgnoresEmptyFields(kind, env, later, c);
    ProblemsDecide(kind, env.(now := later), WithoutEmpty(c));
    assert OmitEmpty(OmitEmpty(c.fields)[Metadata := env.stringify(c.metadata.body)]) ==
           OmitEmpty(c.fields[Metadata := env.stringify(c.metadata.body)]);
  }

  lemma OmitEmptyKeeps(fields: Fields)
    ensures Keeps(OmitEmpty(fields), fields)
  {
  }

  // ---------- dead letters ----------

  /** The payload is the command itself; its JSON text is not modelled. */
  datatype DeadLetter = DeadLetter(
    schemaVersion: string, messageType: string, originalStreamId: string, commandId: string, orderId: string,
        userId: string,
    reason: string, attempts: nat, failedAt: string, payload: Fields)

  const DEAD_LETTERED := "order.command.dead_lettered.v1"

  /** `buildOrderCommandDeadLetterEntry`; the failure time defaults to the clock's. */
  function BuildDeadLetter<M>(env: Env<M>, originalStreamId: string, reason: string, command: Fields, attempts: int,
                              failedAt: Option<string>): (r: Result<DeadLetter>)
    ensures r.Ok? <==> && Trim(originalStreamId) != "" && Trim(reason) != "" && attempts >= 0
                       && Trim(failedAt.GetOr(env.now)) != "" && env.isTimestamp(failedAt.GetOr(env.now))
    ensures r.Ok? ==> && r.value.originalStreamId == originalStreamId && r.value.reason == reason
                      && r.value.attempts == attempts && r.value.payload == command
                      && r.value.failedAt == failedAt.GetOr(env.now) && r.value.messageType == DEAD_LETTERED
  {
    var time := failedAt.GetOr(env.now);
    if Trim(originalStreamId) == "" then Err("originalStreamId is required")
    else if Trim(reason) == "" then Err("reason is required")
    else if attempts < 0 then Err("attempts must be a non-negative integer")
    else if Trim(time) == "" || !env.isTimestamp(time) then Err("failedAt must be an ISO-compatible timestamp")
    else
      Ok(DeadLetter(CONTRACT_VERSION, DEAD_LETTERED, originalStreamId, TextAt(command, CommandId),
          TextAt(command, OrderId),
                    TextAt(command, UserId), reason, attempts, time, command))
  }
}
