/**
  The draft the gateway makes of an order request: the row it will store and the stream entry it will
  append come from the same normalised values.
 */
module OrderDraft {
  import opened Wrappers
  import opened Text
  import opened OrderTypes
  import opened StreamContracts
  import opened ContractMeaning
  import opened ExchangeRequest
  import opened Orders
  import opened Commands

  /** The texts of a request body; tokens that are not text and decimals that are neither text nor number are absent. */
  datatype Request = Request(
    symbol: Option<string>, side: Option<string>, orderType: Option<string>, quantity: Option<string>,
    quoteOrderQty: Option<string>, price: Option<string>, stopPrice: Option<string>, timeInForce: Option<string>)

  datatype Draft = Draft(
    orderId: string, userId: string, symbol: string, side: string, orderType: string,
    quantity: Option<string>, quoteOrderQty: Option<string>, price: Option<string>, stopPrice: Option<string>,
    timeInForce: string, entry: Fields)

  function TokenOf(text: Option<string>): string {
    Token(text.GetOr(""))
  }

  /** `optionalDecimalStringFromInput`: trimmed, and absent when empty; blank text is kept as empty text. */
  function DecimalOf(text: Option<string>): Option<string> {
    if text.None? || text.value == "" then None else Some(Trim(text.value))
  }

  function TypeOf(text: Option<string>): string {
    Alias(Token(if text.GetOr("") == "" then "MARKET" else text.value))
  }

  function TimeInForceOf(orderType: string, text: Option<string>): string {
    if TokenOf(text) == "" && NeedsTimeInForce(orderType) then "GTC" else TokenOf(text)
  }

  /** The draft before its stream entry is built. */
  function Normalized(request: Request, userId: string, orderId: string): (d: Draft)
    ensures d.orderId == orderId && d.userId == userId
  {
    var orderType := TypeOf(request.orderType);
    Draft(orderId, userId, TokenOf(request.symbol), TokenOf(request.side), orderType,
          DecimalOf(request.quantity), DecimalOf(request.quoteOrderQty), DecimalOf(request.price),
              DecimalOf(request.stopPrice),
          TimeInForceOf(orderType, request.timeInForce), map[])
  }

  predicate Positive(lib: Library, text: Option<string>) {
    text.Some? && Trim(text.value) != "" && lib(text.value).Some? && lib(text.value).value > 0.0
  }

  /** `validateOrderRequestFields`. */
  predicate RequestAccepted(lib: Library, d: Draft) {
    && d.symbol != "" && IsSide(d.side)
    && (if d.orderType == "MARKET" then Positive(lib, d.quantity) != Positive(lib, d.quoteOrderQty)
        else Positive(lib, d.quantity) && d.quoteOrderQty.None?)
    && (NeedsPrice(d.orderType) ==> Positive(lib, d.price))
    && (NeedsStopPrice(d.orderType) ==> Positive(lib, d.stopPrice))
    && (NeedsTimeInForce(d.orderType) ==> IsTimeInForce(d.timeInForce))
  }

  function With(fields: Fields, f: Field, text: Option<string>): Fields {
    if text.Some? then fields[f := text.value] else fields
  }

  function BasicFields(d: Draft, createdAt: string): Fields {
    map[CommandId := d.orderId, OrderId := d.orderId, UserId := d.userId, Symbol := d.symbol, Side := d.side,
        StreamContracts.OrderType := d.orderType, TimeInForce := d.timeInForce, Source := "backend",
        CreatedAt := createdAt]
  }

  /** The command the stream entry is built from. */
  function CommandFields(d: Draft, requestId: Option<string>, createdAt: string): Fields {
    var fields := BasicFields(d, createdAt);
    With(With(With(With(With(fields, Quantity, d.quantity), QuoteOrderQty, d.quoteOrderQty), Price, d.price),
              StopPrice, d.stopPrice), RequestId, requestId)
  }

  /** `createOrderSubmitDraftFromRequest`. */
  function CreateDraft<M>(lib: Library, env: Env<M>, request: Request, userId: string, orderId: string,
      requestId: Option<string>)
    : (r: Result<Draft>)
    ensures r.Ok? ==> r.value.orderId == orderId && r.value.userId == userId
  {
    hide Build, CommandFields, RequestAccepted, Normalized;
    var d := Normalized(request, userId, orderId);
    if !RequestAccepted(lib, d) then Err("order request is not valid")
    else
      var entry :- Build(Kind.Submit, env, CommandFields(d, requestId, env.now), Some(JsonObject(env.emptyObject)));
      Ok(d.(entry := entry))
  }

  // ---------- the stored row ----------

  /** A decimal column: empty text counts as none. */
  function DecimalText(lib: Library, text: Option<string>): Option<real> {
    if text.GetOr("") == "" then None else lib(text.value)
  }

  function StoredIntent(lib: Library, d: Draft): Intent {
    Intent(d.userId, d.symbol, d.side, d.orderType, DecimalText(lib, d.quantity), DecimalText(lib, d.quoteOrderQty),
           DecimalText(lib, d.price), DecimalText(lib, d.stopPrice),
               if d.timeInForce == "" then None else Some(d.timeInForce))
  }

  /** The number a decimal of the request gives: none if it is blank, otherwise the library's reading of it, trimmed. */
  function Asked(lib: Library, text: Option<string>): Option<real> {
    if Trim(text.GetOr("")) == "" then None else lib(Trim(text.value))
  }

  /** The intent says what the request asks for, part by part. */
  predicate IsRequested(lib: Library, intent: Intent, request: Request, userId: string) {
    var name := Upper(Trim(if request.orderType.GetOr("") == "" then "MARKET" else request.orderType.value));
    var orderType := if name == "STOP_MARKET" then "STOP_LOSS" else name;
    var timeInForce := Upper(Trim(request.timeInForce.GetOr("")));
    && intent.userId == userId && intent.orderType == orderType
    && intent.symbol == Upper(Trim(request.symbol.GetOr(""))) && intent.side == Upper(Trim(request.side.GetOr("")))
    && intent.quantity == Asked(lib, request.quantity) && intent.quoteOrderQty == Asked(lib, request.quoteOrderQty)
    && intent.price == Asked(lib, request.price) && intent.stopPrice == Asked(lib, request.stopPrice)
    && intent.timeInForce.GetOr("") ==
         (if timeInForce == "" && orderType in ["LIMIT", "STOP_LOSS_LIMIT", "TAKE_PROFIT_LIMIT"] then "GTC"
          else timeInForce)
  }

  lemma {:induction false} DecimalIsAsked(lib: Library, text: Option<string>)
    ensures DecimalText(lib, DecimalOf(text)) == Asked(lib, text)
  {
    BlankIsEmpty();
    hide Trim;
  }

  lemma BlankIsEmpty()
    ensures Trim("") == ""
  {
  }

  /** The row of an accepted request stores what it asks for. */
  lemma {:induction false} DraftStoresRequest<M>(lib: Library, env: Env<M>, request: Request, userId: string,
      orderId: string, requestId: Option<string>)
    requires CreateDraft(lib, env, request, userId, orderId, requestId).Ok?
    ensures IsRequested(lib, StoredIntent(lib, CreateDraft(lib, env, request, userId, orderId, requestId).value),
                request, userId)
  {
    hide Build, CommandFields, RequestAccepted, Trim, Upper, DecimalOf, DecimalText, Asked;
    DecimalIsAsked(lib, request.quantity);
    DecimalIsAsked(lib, request.quoteOrderQty);
    DecimalIsAsked(lib, request.price);
    DecimalIsAsked(lib, request.stopPrice);
  }

  /** Which requests are accepted at all: what each type needs is there, as numbers above zero. */
  lemma {:induction false} AcceptedRequest<M>(lib: Library, env: Env<M>, request: Request, userId: string,
      orderId: string, requestId: Option<string>)
    requires CreateDraft(lib, env, request, userId, orderId, requestId).Ok?
    ensures var i := StoredIntent(lib, CreateDraft(lib, env, request, userId, orderId, requestId).value);
            && i.symbol != "" && i.side in ["BUY", "SELL"]
            && (i.orderType == "MARKET" ==> (Above(i.quantity) <==> !Above(i.quoteOrderQty)))
            && (i.orderType != "MARKET" ==> Above(i.quantity) && i.quoteOrderQty.None?)
            && (i.orderType in ["LIMIT", "STOP_LOSS_LIMIT", "TAKE_PROFIT_LIMIT", "LIMIT_MAKER"] ==> Above(i.price))
            && (i.orderType in ["STOP_LOSS", "STOP_LOSS_LIMIT", "TAKE_PROFIT", "TAKE_PROFIT_LIMIT"] ==>
                  Above(i.stopPrice))
            && (i.orderType in ["LIMIT", "STOP_LOSS_LIMIT", "TAKE_PROFIT_LIMIT"] ==>
                  i.timeInForce.Some? && i.timeInForce.value in ["GTC", "IOC", "FOK"])
  {
    hide Build, CommandFields, Normalized;
    var d := Normalized(request, userId, orderId);
    DraftDecimals(request, userId, orderId);
    PositiveIsAbove(lib, request.quantity);
    PositiveIsAbove(lib, request.quoteOrderQty);
    PositiveIsAbove(lib, request.price);
    PositiveIsAbove(lib, request.stopPrice);
    TifIsText(d.timeInForce);
    hide Positive, DecimalOf, DecimalText, Above, Trim;
  }

  predicate Above(x: Option<real>) {
    x.Some? && x.value > 0.0
  }

  lemma PositiveIsAbove(lib: Library, raw: Option<string>)
    ensures Positive(lib, DecimalOf(raw)) <==> Above(DecimalText(lib, DecimalOf(raw)))
    ensures DecimalOf(raw).None? ==> DecimalText(lib, DecimalOf(raw)).None?
  {
    BlankIsEmpty();
    TrimIsProjection(raw.GetOr(""));
    hide Trim;
  }

  lemma DraftDecimals(request: Request, userId: string, orderId: string)
    ensures var d := Normalized(request, userId, orderId);
            && d.quantity == DecimalOf(request.quantity) && d.quoteOrderQty == DecimalOf(request.quoteOrderQty)
            && d.price == DecimalOf(request.price) && d.stopPrice == DecimalOf(request.stopPrice)
  {
    hide DecimalOf, TypeOf, TokenOf, TimeInForceOf;
  }

  lemma TifIsText(text: string)
    ensures IsTimeInForce(text) ==> text != ""
  {
  }

  predicate Storable(lib: Library, text: Option<string>) {
    text.Some? ==> text.value != "" && lib(text.value).Some?
  }

  /** The database refuses decimals it cannot read. */
  predicate RowAccepted(lib: Library, d: Draft) {
    Storable(lib, d.quantity) && Storable(lib, d.quoteOrderQty) && Storable(lib, d.price) && Storable(lib, d.stopPrice)
  }

  // ---------- comparing a draft with a stored row ----------

  /** `decimalValuesEqual` of a stored decimal and a text. */
  predicate DecimalMatches(lib: Library, stored: Option<real>, text: Option<string>) {
    stored == DecimalText(lib, text)
  }

  predicate NullableMatches(lib: Library, stored: Option<real>, text: Option<string>) {
    if text.GetOr("") == "" then stored.None? else DecimalMatches(lib, stored, text)
  }

  /** `isSameOrderIntent`, for the row stored under the draft's order id. */
  predicate SameIntent(lib: Library, row: Option<Row>, d: Draft) {
    row.Some? &&
    var i := row.value.intent;
    && i.userId == d.userId && i.symbol == d.symbol && i.side == d.side && i.orderType == d.orderType
    && DecimalMatches(lib, i.quantity, d.quantity)
    && NullableMatches(lib, i.quoteOrderQty, d.quoteOrderQty)
    && NullableMatches(lib, i.price, d.price)
    && NullableMatches(lib, i.stopPrice, d.stopPrice)
    && (if i.timeInForce.GetOr("") == "" then d.timeInForce == "" else i.timeInForce.value == d.timeInForce)
  }

  /** A repeated request is taken for the same exactly when it would store the same intent. */
  lemma SameIntentMeansEqual(lib: Library, row: Row, d: Draft)
    requires row.intent.timeInForce != Some("")
    ensures SameIntent(lib, Some(row), d) <==> row.intent == StoredIntent(lib, d)
  {
  }

  // ---------- the entry names the row ----------

  predicate IsDraftField(f: Field) {
    f in {OrderId, UserId, Symbol, Side, StreamContracts.OrderType, TimeInForce, Quantity, QuoteOrderQty, Price,
        StopPrice}
  }

  function DraftText(d: Draft, f: Field): string {
    match f
    case OrderId => d.orderId
    case UserId => d.userId
    case Symbol => d.symbol
    case Side => d.side
    case OrderType => d.orderType
    case TimeInForce => d.timeInForce
    case Quantity => d.quantity.GetOr("")
    case QuoteOrderQty => d.quoteOrderQty.GetOr("")
    case Price => d.price.GetOr("")
    case StopPrice => d.stopPrice.GetOr("")
    case _ => ""
  }

  predicate IsId(f: Field) {
    f == OrderId || f == UserId
  }

  /** Tokens are tokens and decimals are trimmed; the ids are as they came. */
  ghost predicate Proper(d: Draft) {
    forall f :: IsDraftField(f) && !IsId(f) ==>
      if IsTokenField(f) then Token(DraftText(d, f)) == DraftText(d, f) else Trim(DraftText(d, f)) == DraftText(d, f)
  }

  lemma {:induction false} LiteralsAreTokens()
    ensures Token("STOP_LOSS") == "STOP_LOSS" && Token("GTC") == "GTC"
  {
    PlainToken("STOP_LOSS");
    PlainToken("GTC");
  }

  lemma PlainToken(s: string)
    requires s != [] && forall i :: 0 <= i < |s| ==> !('a' <= s[i] <= 'z') && !IsSpace(s[i])
    ensures Token(s) == s
  {
    NothingToTrim(s);
    hide Trim;
    assert forall i :: 0 <= i < |s| ==> Upper(s)[i] == s[i];
  }

  lemma DecimalOfIsTrimmed(text: Option<string>)
    ensures Trim(DecimalOf(text).GetOr("")) == DecimalOf(text).GetOr("")
  {
    TokenOfEmpty();
    TrimIsProjection(text.GetOr(""));
    hide Trim;
  }

  lemma {:induction false} NormalizedIsProper(request: Request, userId: string, orderId: string)
    ensures Proper(Normalized(request, userId, orderId))
  {
    LiteralsAreTokens();
    hide Trim, Token, NeedsTimeInForce, DecimalOf;
    TokenIsProjection(request.symbol.GetOr(""));
    TokenIsProjection(request.side.GetOr(""));
    TokenIsProjection(request.timeInForce.GetOr(""));
    TokenIsProjection(if request.orderType.GetOr("") == "" then "MARKET" else request.orderType.value);
    DecimalOfIsTrimmed(request.quantity);
    DecimalOfIsTrimmed(request.quoteOrderQty);
    DecimalOfIsTrimmed(request.price);
    DecimalOfIsTrimmed(request.stopPrice);
  }

  /** The order a stream entry means to its consumer. */
  function EntryOrder<M>(lib: Library, env: Env<M>, entry: Fields): Result<Order> {
    var c :- ParseOrderCommand(env, entry);
    OrderOf(lib, c.fields)
  }

  /** What the draft's entry comes to at the consumer, after normalising and dropping empty fields. */
  lemma {:induction false} BuiltText<M(!new)>(kind: Kind, env: Env<M>, input: Fields, metadata: Option<Json<M>>,
      f: Field)
    requires Build(kind, env, input, metadata).Ok? && f in FieldsOf(kind) && !HasDefault(f)
    ensures var c := WithoutEmpty(Normalize(kind, env, input, metadata));
            TextAt(c.fields, f) == if IsTokenField(f) then Token(TextAt(input, f)) else Trim(TextAt(input, f))
  {
    NormalFieldText(kind, env, input, f);
    NormalizedHas(kind, env, input, metadata, f);
    OmitEmptyKeepsText(Normalize(kind, env, input, metadata).fields, f);
    hide Trim, Token, Build, FieldsOf, Normalize, NormalField, OmitEmpty, HasDefault, IsTokenField;
  }

  lemma {:induction false} NormalFieldText<M>(kind: Kind, env: Env<M>, input: Fields, f: Field)
    requires !HasDefault(f)
    ensures NormalField(kind, env, input, f).GetOr("") ==
            if IsTokenField(f) then Token(TextAt(input, f)) else Trim(TextAt(input, f))
  {
    TokenOfEmpty();
    hide Trim, Token, MessageTypeOf;
  }

  lemma DraftFieldsAreListed(f: Field)
    requires IsDraftField(f)
    ensures f in FieldsOf(Kind.Submit) && !HasDefault(f)
  {
  }

  lemma TextWith(fields: Fields, f: Field, text: Option<string>, g: Field)
    ensures TextAt(With(fields, f, text), g) == if g == f && text.Some? then text.value else TextAt(fields, g)
  {
  }

  lemma BasicText(d: Draft, createdAt: string, f: Field)
    requires IsDraftField(f)
    ensures TextAt(BasicFields(d, createdAt), f) ==
            if f in {Quantity, QuoteOrderQty, Price, StopPrice} then "" else DraftText(d, f)
  {
  }

  lemma CommandText(d: Draft, requestId: Option<string>, createdAt: string, f: Field)
    requires IsDraftField(f)
    ensures TextAt(CommandFields(d, requestId, createdAt), f) == DraftText(d, f)
  {
    hide TextAt, With, BasicFields;
    var basic := BasicFields(d, createdAt);
    BasicText(d, createdAt, f);
    TextWith(basic, Quantity, d.quantity, f);
    var first := With(basic, Quantity, d.quantity);
    TextWith(first, QuoteOrderQty, d.quoteOrderQty, f);
    var second := With(first, QuoteOrderQty, d.quoteOrderQty);
    TextWith(second, Price, d.price, f);
    var third := With(second, Price, d.price);
    TextWith(third, StopPrice, d.stopPrice, f);
    TextWith(With(third, StopPrice, d.stopPrice), RequestId, requestId, f);
  }

  /** The parsed fields of a draft's entry are the draft's own texts, with the ids trimmed. */
  ghost predicate SameTexts(fields: Fields, d: Draft) {
    forall f :: IsDraftField(f) ==>
      TextAt(fields, f) == if IsId(f) then Trim(DraftText(d, f)) else DraftText(d, f)
  }

  lemma {:induction false} EntryHasDraftTexts<M(!new)>(env: Env<M>, d: Draft, input: Fields, metadata: Option<Json<M>>)
    requires Proper(d) && Build(Kind.Submit, env, input, metadata).Ok?
    requires forall f :: IsDraftField(f) ==> TextAt(input, f) == DraftText(d, f)
    ensures SameTexts(WithoutEmpty(Normalize(Kind.Submit, env, input, metadata)).fields, d)
  {
    hide Build, Normalize, Trim, Token, TextAt, FieldsOf, WithoutEmpty, DraftText, HasDefault;
    forall f | IsDraftField(f)
      ensures TextAt(WithoutEmpty(Normalize(Kind.Submit, env, input, metadata)).fields, f) ==
              if IsId(f) then Trim(DraftText(d, f)) else DraftText(d, f)
    {
      DraftFieldsAreListed(f);
      BuiltText(Kind.Submit, env, input, metadata, f);
    }
  }

  lemma {:induction false} TokenKeeps(text: string)
    requires Token(text) == text
    ensures Trim(text) == text && Upper(text) == text
  {
    TokenIsProjection(text);
    UpperIsProjection(Trim(text));
    hide Trim, Upper;
  }

  lemma {:induction false} TokenIsRead(fields: Fields, f: Field, text: string)
    requires TextAt(fields, f) == text == Token(text)
    ensures UpperAt(fields, f) == text
    ensures UpperOption(NonBlank(fields, f)) == if text == "" then None else Some(text)
  {
    hide Trim, Token, Upper, TextAt;
    TokenKeeps(text);
    UpperOfEmpty();
  }

  lemma IdIsRead(fields: Fields, f: Field, text: string)
    requires TextAt(fields, f) == Trim(text)
    ensures NonBlank(fields, f).GetOr("") == Trim(text)
  {
    TrimIsProjection(text);
    hide Trim, TextAt;
  }

  /** The consumer's reading of those fields is the row's intent, apart from white space around the user id. */
  lemma {:induction false} TextsGiveIntent(lib: Library, fields: Fields, d: Draft)
    requires Proper(d) && SameTexts(fields, d) && d.orderType != ""
    ensures IntentOf(lib, fields) == StoredIntent(lib, d).(userId := Trim(d.userId))
  {
    hide Trim, Token, Upper, TextAt, Proper, SameTexts, DecimalAt, DecimalText, UpperAt, UpperOption, NonBlank, Trimmed;
    DraftTexts(fields, d);
    IdIsRead(fields, UserId, d.userId);
    TokenIsRead(fields, Symbol, d.symbol);
    TokenIsRead(fields, Side, d.side);
    TokenIsRead(fields, TimeInForce, d.timeInForce);
    assert DraftText(d, Quantity) == d.quantity.GetOr("") && DraftText(d, QuoteOrderQty) == d.quoteOrderQty.GetOr("");
    assert DraftText(d, Price) == d.price.GetOr("") && DraftText(d, StopPrice) == d.stopPrice.GetOr("");
    hide DraftText;
    DecimalTextsAgree(lib, fields, d, Quantity, d.quantity);
    DecimalTextsAgree(lib, fields, d, QuoteOrderQty, d.quoteOrderQty);
    DecimalTextsAgree(lib, fields, d, Price, d.price);
    DecimalTextsAgree(lib, fields, d, StopPrice, d.stopPrice);
  }

  lemma {:induction false} DraftTexts(fields: Fields, d: Draft)
    requires Proper(d) && SameTexts(fields, d)
    ensures TextAt(fields, UserId) == Trim(d.userId) && TextAt(fields, OrderId) == Trim(d.orderId)
    ensures TextAt(fields, Symbol) == d.symbol == Token(d.symbol) && TextAt(fields, Side) == d.side == Token(d.side)
    ensures TextAt(fields, StreamContracts.OrderType) == d.orderType == Token(d.orderType)
    ensures TextAt(fields, TimeInForce) == d.timeInForce == Token(d.timeInForce)
  {
    hide Trim, Token, TextAt;
    assert DraftText(d, UserId) == d.userId && DraftText(d, OrderId) == d.orderId;
    assert DraftText(d, Symbol) == d.symbol && DraftText(d, Side) == d.side;
    assert DraftText(d, StreamContracts.OrderType) == d.orderType && DraftText(d, TimeInForce) == d.timeInForce;
  }

  lemma UpperOfEmpty()
    ensures Upper("") == "" && Trim("") == ""
  {
  }

  lemma {:induction false} DecimalTextsAgree(lib: Library, fields: Fields, d: Draft, f: Field, text: Option<string>)
    requires Proper(d) && SameTexts(fields, d) && IsDraftField(f) && !IsId(f) && !IsTokenField(f)
    requires DraftText(d, f) == text.GetOr("")
    ensures DecimalAt(lib, fields, f) == DecimalText(lib, text)
  {
    UpperOfEmpty();
    hide Trim, Token, TextAt;
    assert Trim(DraftText(d, f)) == DraftText(d, f);
  }

  lemma {:induction false} TextsGiveOrder(lib: Library, fields: Fields, d: Draft)
    requires Proper(d) && SameTexts(fields, d) && Exact(lib) && SubmitRules(fields)
    requires Trim(TextAt(fields, OrderId)) != "" && Trim(TextAt(fields, UserId)) != ""
        && Trim(TextAt(fields, Symbol)) != ""
    ensures OrderOf(lib, fields) == Ok(Order(Trim(d.orderId), StoredIntent(lib, d).(userId := Trim(d.userId))))
  {
    hide Trim, Token, Upper, TextAt, Proper, SubmitRules, IntentOf, StoredIntent, Exact, Missing, SameTexts;
    DraftTexts(fields, d);
    RulesNameSide(fields);
    RulesNameType(fields);
    OneSize(lib, fields);
    TokenKeeps(d.side);
    TrimIsProjection(d.orderId);
    TextsGiveIntent(lib, fields, d);
  }

  lemma {:induction false} BuiltFollowsRules<M(!new)>(env: Env<M>, input: Fields, metadata: Option<Json<M>>)
    requires Build(Kind.Submit, env, input, metadata).Ok?
    ensures var fields := WithoutEmpty(Normalize(Kind.Submit, env, input, metadata)).fields;
            && SubmitRules(fields) && Trim(TextAt(fields, OrderId)) != ""
            && Trim(TextAt(fields, UserId)) != "" && Trim(TextAt(fields, Symbol)) != ""
  {
    hide Build, Normalize, SubmitRules, Trim, TextAt, MessageTypeOf, OmitEmpty;
    BuildSucceeds(Kind.Submit, env, input, metadata);
    ContractIgnoresEmptyFields(Kind.Submit, env, env.now, Normalize(Kind.Submit, env, input, metadata));
  }

  lemma StoredIntentIgnoresEntry(lib: Library, d: Draft, entry: Fields)
    ensures StoredIntent(lib, d.(entry := entry)) == StoredIntent(lib, d)
  {
  }

  /**
    The entry a draft carries is a submit of the order the draft's row stores: same order id and same
    intent, except that the entry trims the order and user ids.
   */
  lemma {:induction false} EntryMeansRow<M(!new)>(lib: Library, env: Env<M>, later: string, request: Request,
      userId: string, orderId: string,
                               requestId: Option<string>)
    requires Sound(env) && Exact(lib) && CreateDraft(lib, env, request, userId, orderId, requestId).Ok?
    ensures var d := CreateDraft(lib, env, request, userId, orderId, requestId).value;
            EntryOrder(lib, env.(now := later), d.entry) ==
              Ok(Order(Trim(orderId), StoredIntent(lib, d).(userId := Trim(userId))))
  {
    var d := Normalized(request, userId, orderId);
    var (input, metadata) := (CommandFields(d, requestId, env.now), Some(JsonObject(env.emptyObject)));
    hide Build, Normalize, CommandFields, ParseOrderCommand, OrderOf, RequestAccepted, Sound, SameTexts, StoredIntent,
        Exact, Proper;
    hide Normalized, Trim, WithoutEmpty;
    NormalizedIsProper(request, userId, orderId);
    ParseInvertsBuild(Kind.Submit, env, later, input, metadata);
    forall f | IsDraftField(f)
      ensures TextAt(input, f) == DraftText(d, f)
    {
      CommandText(d, requestId, env.now, f);
    }
    EntryHasDraftTexts(env, d, input, metadata);
    var fields := WithoutEmpty(Normalize(Kind.Submit, env, input, metadata)).fields;
    BuiltFollowsRules(env, input, metadata);
    TextsGiveOrder(lib, fields, d);
    StoredIntentIgnoresEntry(lib, d, CreateDraft(lib, env, request, userId, orderId, requestId).value.entry);
  }
}
