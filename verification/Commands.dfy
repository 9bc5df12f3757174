/**
  From parsed stream fields to what the processors work with, and the dispatch on the message type.
 */
module Commands {
  import opened Wrappers
  import opened Text
  import opened OrderTypes
  import opened StreamContracts
  import opened ExchangeRequest
  import opened Orders
  import opened Store
  import opened SubmitProcessor
  import opened CancelProcessor
  import opened CancelAllProcessor

  function DecimalAt(lib: Library, fields: Fields, f: Field): Option<real> {
    if NonBlank(fields, f).None? then None else lib(NonBlank(fields, f).value)
  }

  function UpperAt(fields: Fields, f: Field): string {
    Upper(NonBlank(fields, f).GetOr(""))
  }

  /** The intent a command's fields state, as a stored row keeps it. */
  function IntentOf(lib: Library, fields: Fields): Intent {
    Intent(
      NonBlank(fields, UserId).GetOr(""), UpperAt(fields, Symbol), UpperAt(fields, Side),
      Token(if TextAt(fields, OrderType) == "" then "MARKET" else TextAt(fields, OrderType)),
      DecimalAt(lib, fields, Quantity), DecimalAt(lib, fields, QuoteOrderQty),
      DecimalAt(lib, fields, Price), DecimalAt(lib, fields, StopPrice),
      UpperOption(NonBlank(fields, TimeInForce)))
  }

  predicate Given(fields: Fields, f: Field) {
    NonBlank(fields, f).Some?
  }

  /** `normalizeExecutionOrderCommand`. */
  function OrderOf(lib: Library, fields: Fields): Result<Order> {
    if !Given(fields, OrderId) then Err(Missing(OrderId))
    else if !Given(fields, UserId) then Err(Missing(UserId))
    else if !Given(fields, Symbol) then Err(Missing(Symbol))
    else if !Given(fields, Side) then Err(Missing(Side))
    else if !Given(fields, Quantity) && !Given(fields, QuoteOrderQty) then Err("quantity or quoteOrderQty is required")
    else Ok(Order(NonBlank(fields, OrderId).value, IntentOf(lib, fields)))
  }

  /** Every submit that parses names an order, with exactly one size. */
  lemma {:induction false} ValidSubmitHasOrder<M(!new)>(lib: Library, env: Env<M>, entry: Fields)
    requires Exact(lib) && Sound(env) && Parse(Submit, env, entry).Ok?
    ensures var fields := Parse(Submit, env, entry).value.fields;
            && OrderOf(lib, fields).Ok?
            && OrderOf(lib, fields).value.orderId == TextAt(fields, OrderId)
            && OrderOf(lib, fields).value.intent.userId == TextAt(fields, UserId)
            && OrderOf(lib, fields).value.intent.orderType == TextAt(fields, OrderType)
            && (OrderOf(lib, fields).value.intent.quantity.Some? <==>
                OrderOf(lib, fields).value.intent.quoteOrderQty.None?)
            && SaysWhatFieldsSay(lib, OrderOf(lib, fields).value.intent, fields)
  {
    hide Normalize, Problems, SubmitRules, Trim, Token, Upper, FieldsOf, TextAt, Sound, Exact, UpperAt, Missing,
        MessageTypeOf;
    hide DecimalAt;
    var c := Parse(Submit, env, entry).value;
    ProblemsDecide(Submit, env, c);
    MoreFieldsAreListed();
    NormalText(env, entry, OrderId);
    NormalText(env, entry, UserId);
    NormalText(env, entry, Symbol);
    NormalText(env, entry, Side);
    NormalText(env, entry, StreamContracts.OrderType);
    RulesNameSide(c.fields);
    OneSize(lib, c.fields);
    RulesNameType(c.fields);
    NormalText(env, entry, TimeInForce);
    NormalText(env, entry, Quantity);
    NormalText(env, entry, QuoteOrderQty);
    NormalText(env, entry, Price);
    NormalText(env, entry, StopPrice);
    IntentReads(lib, c.fields);
    hide SaysWhatFieldsSay;
  }

  /** Each part of the intent is the command's own field; decimals are what the library reads. */
  predicate SaysWhatFieldsSay(lib: Library, intent: Intent, fields: Fields) {
    && intent.userId == TextAt(fields, UserId) && intent.symbol == TextAt(fields, Symbol)
    && intent.side == TextAt(fields, Side) && intent.orderType == TextAt(fields, StreamContracts.OrderType)
    && intent.quantity == (if TextAt(fields, Quantity) == "" then None else lib(TextAt(fields, Quantity)))
    && intent.quoteOrderQty ==
         (if TextAt(fields, QuoteOrderQty) == "" then None else lib(TextAt(fields, QuoteOrderQty)))
    && intent.price == (if TextAt(fields, Price) == "" then None else lib(TextAt(fields, Price)))
    && intent.stopPrice == (if TextAt(fields, StopPrice) == "" then None else lib(TextAt(fields, StopPrice)))
    && intent.timeInForce == (if TextAt(fields, TimeInForce) == "" then None else Some(TextAt(fields, TimeInForce)))
  }

  predicate IsSubmitField(f: Field) {
    f in {UserId, Symbol, Side, StreamContracts.OrderType, TimeInForce, Quantity, QuoteOrderQty, Price, StopPrice}
  }

  lemma {:induction false} IntentReads(lib: Library, fields: Fields)
    requires forall f :: IsSubmitField(f) ==> Trim(TextAt(fields, f)) == TextAt(fields, f)
    requires forall f :: IsTokenField(f) ==> Token(TextAt(fields, f)) == TextAt(fields, f)
    requires TextAt(fields, StreamContracts.OrderType) != ""
    ensures SaysWhatFieldsSay(lib, IntentOf(lib, fields), fields)
  {
    hide Trim, TextAt;
    UpperOfNothing();
    hide Upper;
    assert Token(TextAt(fields, Symbol)) == Upper(TextAt(fields, Symbol));
    assert Token(TextAt(fields, Side)) == Upper(TextAt(fields, Side));
    assert Token(TextAt(fields, TimeInForce)) == Upper(TextAt(fields, TimeInForce));
  }

  lemma UpperOfNothing()
    ensures Upper("") == ""
  {
  }

  lemma MoreFieldsAreListed()
    ensures {OrderId, UserId, Symbol, Side, StreamContracts.OrderType, TimeInForce, Quantity, QuoteOrderQty, Price,
             StopPrice} <= FieldsOf(Submit)
  {
  }

  lemma RulesNameType(fields: Fields)
    requires SubmitRules(fields)
    ensures TextAt(fields, StreamContracts.OrderType) != ""
  {
  }

  lemma {:induction false} OneSize(lib: Library, fields: Fields)
    requires Exact(lib) && SubmitRules(fields)
    ensures Given(fields, Quantity) || Given(fields, QuoteOrderQty)
    ensures DecimalAt(lib, fields, Quantity).Some? <==> DecimalAt(lib, fields, QuoteOrderQty).None?
  {
    hide PositiveDecimalText, Trim, IsOrderType, IsSide, IsTimeInForce, TextAt, Exact, BadPrice;
    TokenOfEmpty();
    if TextAt(fields, QuoteOrderQty) == "" {
      PositiveTextIsAccepted(lib, fields, Quantity);
    } else {
      PositiveTextIsAccepted(lib, fields, QuoteOrderQty);
    }
  }

  // ---------- the dispatch ----------

  /** What the services behind the processors answer while one command is processed. */
  datatype Answers = Answers(
    check: Check, credential: Option<string>, placed: Answer, canceled: CancelAnswer, allCanceled: CancelAllAnswer)

  function KindOf(fields: Fields): Kind {
    var messageType := TextAt(fields, MessageType);
    if messageType == MessageTypeOf(Kind.Cancel) then Kind.Cancel
    else if messageType == MessageTypeOf(CancelAll) then CancelAll
    else Kind.Submit
  }

  /** A field is missing that the command's processor asks for. */
  predicate LacksField(fields: Fields) {
    match KindOf(fields)
    case Submit =>
      || !Given(fields, OrderId) || !Given(fields, UserId) || !Given(fields, Symbol) || !Given(fields, Side)
      || (!Given(fields, Quantity) && !Given(fields, QuoteOrderQty))
    case Cancel => !Given(fields, OrderId) || !Given(fields, UserId) || !Given(fields, Symbol)
    case CancelAll => !Given(fields, CommandId) || !Given(fields, UserId) || !Given(fields, Symbol)
  }

  lemma LackingMeans(lib: Library, fields: Fields)
    ensures KindOf(fields) == Kind.Submit ==> (LacksField(fields) <==> OrderOf(lib, fields).Err?)
    ensures KindOf(fields) == Kind.Cancel ==>
              (LacksField(fields) <==> !Given(fields, OrderId) || !Given(fields, UserId) || !Given(fields, Symbol))
    ensures KindOf(fields) == CancelAll ==>
              (LacksField(fields) <==> !Given(fields, CommandId) || !Given(fields, UserId) || !Given(fields, Symbol))
  {
    hide NonBlank, KindOf, IntentOf;
  }

  /** A command that parses lacks nothing its processor asks for. */
  lemma {:induction false} ParsedLacksNothing<M>(env: Env<M>, entry: Fields)
    requires ParseOrderCommand(env, entry).Ok?
    ensures !LacksField(ParseOrderCommand(env, entry).value.fields)
  {
    DispatchedIsValid(env, entry);
    hide ParseOrderCommand, LacksField;
    var c := ParseOrderCommand(env, entry).value;
    var kind :| Parse(kind, env, entry) == ParseOrderCommand(env, entry) && ContractValid(kind, env, c);
    hide Parse;
    ValidLacksNothing(kind, env, c);
  }

  lemma {:induction false} ValidLacksNothing<M>(kind: Kind, env: Env<M>, c: Command<M>)
    requires ContractValid(kind, env, c)
    ensures !LacksField(c.fields) && KindOf(c.fields) == kind
  {
    MessageTypesDiffer();
    hide Trim, MessageTypeOf, SubmitRules;
    if kind == Kind.Submit {
      RulesGiveSide(c.fields);
    }
  }

  lemma {:induction false} RulesGiveSide(fields: Fields)
    requires SubmitRules(fields)
    ensures Given(fields, Side) && (Given(fields, Quantity) || Given(fields, QuoteOrderQty))
  {
    SidesAreText(fields);
    hide PositiveDecimalText, IsOrderType, IsTimeInForce, TextAt, NeedsPrice, NeedsStopPrice, NeedsTimeInForce, Trim;
    hide IsSide;
    if TextAt(fields, QuoteOrderQty) == "" {
      PositiveTextIsPositive(TextAt(fields, Quantity));
    } else {
      PositiveTextIsPositive(TextAt(fields, QuoteOrderQty));
    }
  }

  lemma SidesAreText(fields: Fields)
    ensures IsSide(TextAt(fields, Side)) ==> Given(fields, Side)
  {
    NothingToTrim("BUY");
    NothingToTrim("SELL");
    hide Trim, TextAt;
  }

  /** One message has been published since, and it is about the order. */
  predicate JustPublished(before: seq<Message>, published: seq<Message>, id: OrderId) {
    |published| == |before| + 1 && before <= published && published[|before|].orderId == id
  }

  /** What every command leaves alone. */
  ghost predicate KeepsOrders(rows: Rows, rows': Rows) {
    KeepsIntents(rows, rows') && KeepsExchangeIds(rows, rows')
  }

  lemma KeepsOrdersUnchanged(rows: Rows)
    ensures KeepsOrders(rows, rows)
  {
  }

  lemma KeepsOrdersComposes(rows: Rows, rows': Rows, rows'': Rows)
    requires KeepsOrders(rows, rows') && KeepsOrders(rows', rows'')
    ensures KeepsOrders(rows, rows'')
  {
  }

  /** Every row that was written has a last event of its status. */
  ghost predicate WrittenMatch(rows: Rows, rows': Rows, events: seq<Event>) {
    forall id :: id in rows' && RowAt(rows', id) != RowAt(rows, id) ==> EventMatchesRow(rows', events, id)
  }

  lemma OneWritten(rows: Rows, rows': Rows, events: seq<Event>, id: OrderId)
    requires OnlyTouches(rows, rows', {id}) && (rows' == rows || EventMatchesRow(rows', events, id))
    ensures WrittenMatch(rows, rows', events)
  {
    hide EventMatchesRow;
  }

  /** Only the order's row was written, and unless it had been submitted before, its last event agrees with it. */
  ghost predicate SubmitWritten(rows: Rows, rows': Rows, events: seq<Event>, id: OrderId) {
    && OnlyTouches(rows, rows', {id})
    && (AlreadySubmitted(RowAt(rows, id)) ==> rows' == rows)
    && (!AlreadySubmitted(RowAt(rows, id)) ==> EventMatchesRow(rows', events, id))
  }

  /** Only the user's own unfinished order was written, if it is one, and then its last event agrees with it. */
  ghost predicate CancelWritten(rows: Rows, rows': Rows, events: seq<Event>, id: OrderId, userId: string) {
    && OnlyTouches(rows, rows', {id})
    && (if id in rows && rows[id].intent.userId == userId && !Terminal(rows[id].status)
        then EventMatchesRow(rows', events, id) else rows' == rows)
  }

  /** Exactly the open orders of the user and symbol were written, each with its event. */
  ghost predicate OpenOrdersWritten(rows: Rows, rows': Rows, events: seq<Event>, userId: string, symbol: string) {
    && (forall id :: id in rows && Wanted(rows[id], userId, symbol) ==> EventMatchesRow(rows', events, id))
    && (forall id :: !(id in rows && Wanted(rows[id], userId, symbol)) ==> RowAt(rows', id) == RowAt(rows, id))
  }

  lemma FoundWritten(found: seq<Found>, rows: Rows, rows': Rows, events: seq<Event>, userId: string, symbol: string)
    requires IsQuery(found, rows, userId, symbol)
    requires forall id :: !IsFound(found, id) ==> RowAt(rows', id) == RowAt(rows, id)
    requires forall k :: 0 <= k < |found| ==> EventMatchesRow(rows', events, found[k].orderId)
    ensures OpenOrdersWritten(rows, rows', events, userId, symbol) && WrittenMatch(rows, rows', events)
  {
    hide EventMatchesRow, Wanted;
    forall id | IsFound(found, id)
      ensures EventMatchesRow(rows', events, id)
    {
      var k :| 0 <= k < |found| && found[k].orderId == id;
    }
  }

  method RunSubmit(store: OrderStore, lib: Library, fields: Fields, answers: Answers) returns (outcome: Outcome)
    requires store.Valid() && store.Now().attempt.Idle?
    modifies store
    ensures store.Valid() && store.Now().attempt.Idle? && store.Grows() && KeepsOrders(old(store.rows), store.rows)
    ensures outcome.Threw? ==>
              Interrupted(old(store.history), store.history) || OrderOf(lib, fields).Err?
    ensures !outcome.Threw? ==>
              && OrderOf(lib, fields).Ok?
              && Recorded(store.rows, OrderOf(lib, fields).value.orderId)
              && JustPublished(old(store.published), store.published, OrderOf(lib, fields).value.orderId)
              && WrittenMatch(old(store.rows), store.rows, store.events)
              && SubmitWritten(old(store.rows), store.rows, store.events, OrderOf(lib, fields).value.orderId)
  {
    hide KeepsIntents, KeepsExchangeIds, OnlyTouches, Recorded, Carried, Decide, OrderOf, EventMatchesRow, WrittenMatch;
    hide Placements, OutcomeOf;
    KeepsOrdersUnchanged(store.rows);
    var order := OrderOf(lib, fields);
    if order.Err? {
      return Threw;
    }
    ghost var (rows, events, published) := (store.rows, store.events, store.published);
    outcome := ProcessSubmit(store, order.value, answers.check, answers.credential, answers.placed);
    if !outcome.Threw? {
      ghost var decision := Decide(RowAt(rows, order.value.orderId), answers.check, answers.credential, answers.placed);
      SkipMeansSubmitted(RowAt(rows, order.value.orderId), answers);
      SkipWritesNothing(decision, order.value, rows, events, published, store.rows, store.events, store.published);
      CarriedIsRecorded(decision, order.value, rows, events, published, store.rows, store.events, store.published);
      OneWritten(rows, store.rows, store.events, order.value.orderId);
      assert SubmitWritten(rows, store.rows, store.events, order.value.orderId);
    }
  }

  lemma SkipMeansSubmitted(row: Option<Row>, answers: Answers)
    ensures Decide(row, answers.check, answers.credential, answers.placed).Skip? <==> AlreadySubmitted(row)
  {
  }

  lemma SkipWritesNothing(decision: Decision, order: Order, rows: Rows, events: seq<Event>, published: seq<Message>,
                          rows': Rows, events': seq<Event>, published': seq<Message>)
    requires decision.Skip? ==> order.orderId in rows
    requires Carried(decision, order, rows, events, published, rows', events', published')
    ensures decision.Skip? ==> rows' == rows
  {
  }

  method RunCancel(store: OrderStore, fields: Fields, answers: Answers) returns (outcome: Outcome)
    requires store.Valid() && store.Now().attempt.Idle?
    modifies store
    ensures store.Valid() && store.Now().attempt.Idle? && store.Grows() && KeepsOrders(old(store.rows), store.rows)
    ensures outcome.Threw? ==>
              || Interrupted(old(store.history), store.history)
              || !Given(fields, OrderId) || !Given(fields, UserId) || !Given(fields, Symbol)
    ensures !outcome.Threw? ==>
              && Given(fields, OrderId)
                  && JustPublished(old(store.published), store.published, NonBlank(fields, OrderId).value)
              && WrittenMatch(old(store.rows), store.rows, store.events)
              && Given(fields, UserId)
              && CancelWritten(old(store.rows), store.rows, store.events, NonBlank(fields, OrderId).value,
                  NonBlank(fields, UserId).value)
  {
    hide KeepsIntents, KeepsExchangeIds, OnlyTouches, CancelLeaves, EventMatchesRow, QuantityOf, QuantityOr, PriceOf;
    hide CanceledRow, Because, NonBlank, Reason, CancelOutcome, WrittenMatch;
    KeepsOrdersUnchanged(store.rows);
    if !Given(fields, OrderId) || !Given(fields, UserId) || !Given(fields, Symbol) {
      return Threw;
    }
    ghost var rows := store.rows;
    outcome := ProcessCancel(store, NonBlank(fields, OrderId).value, NonBlank(fields, UserId).value,
                             answers.credential, answers.canceled);
    if !outcome.Threw? {
      OneWritten(rows, store.rows, store.events, NonBlank(fields, OrderId).value);
      CancelDecides(RowAt(rows, NonBlank(fields, OrderId).value), NonBlank(fields, UserId).value, answers);
    }
  }

  lemma CancelDecides(row: Option<Row>, userId: string, answers: Answers)
    ensures var decision := DecideCancel(row, userId, answers.credential, answers.canceled);
            decision.Unknown? || decision.Finished? <==>
            !(row.Some? && row.value.intent.userId == userId && !Terminal(row.value.status))
  {
  }

  method RunCancelAll(store: OrderStore, fields: Fields, answers: Answers) returns (outcome: Outcome)
    requires store.Valid() && store.Now().attempt.Idle?
    modifies store
    ensures store.Valid() && store.Now().attempt.Idle? && store.Grows() && KeepsOrders(old(store.rows), store.rows)
    ensures outcome.Threw? ==>
              || Interrupted(old(store.history), store.history)
              || !Given(fields, CommandId) || !Given(fields, UserId) || !Given(fields, Symbol)
    ensures !outcome.Threw? ==>
              && Given(fields, UserId) && Given(fields, Symbol)
              && WrittenMatch(old(store.rows), store.rows, store.events)
              && OpenOrdersWritten(old(store.rows), store.rows, store.events, NonBlank(fields, UserId).value,
                  UpperAt(fields, Symbol))
  {
    hide KeepsIntents, KeepsExchangeIds, OnlyTouches, IsQuery, CancelAllRefusal, NonBlank, UpperAt, WrittenMatch;
    hide OpenOrdersWritten, IsFound, CancelRejectedRow, RejectedMessages, EventMatchesRow;
    KeepsOrdersUnchanged(store.rows);
    if !Given(fields, CommandId) || !Given(fields, UserId) || !Given(fields, Symbol) {
      return Threw;
    }
    ghost var rows := store.rows;
    ghost var found;
    outcome, found := ProcessCancelAll(store, NonBlank(fields, UserId).value, UpperAt(fields, Symbol),
                                       answers.credential, answers.allCanceled);
    if !outcome.Threw? {
      FoundWritten(found, rows, store.rows, store.events, NonBlank(fields, UserId).value, UpperAt(fields, Symbol));
    }
  }

  /** What a command that does not throw has established, by its kind, given the store before it and after it. */
  ghost predicate Established(lib: Library, fields: Fields, before: Rows, sent: seq<Message>,
                              rows: Rows, events: seq<Event>, published: seq<Message>) {
    && WrittenMatch(before, rows, events)
    && match KindOf(fields)
       case Submit =>
         && OrderOf(lib, fields).Ok?
         && Recorded(rows, OrderOf(lib, fields).value.orderId)
         && JustPublished(sent, published, OrderOf(lib, fields).value.orderId)
         && SubmitWritten(before, rows, events, OrderOf(lib, fields).value.orderId)
       case Cancel =>
         && Given(fields, OrderId) && Given(fields, UserId)
         && JustPublished(sent, published, NonBlank(fields, OrderId).value)
         && CancelWritten(before, rows, events, NonBlank(fields, OrderId).value, NonBlank(fields, UserId).value)
       case CancelAll =>
         && Given(fields, UserId) && Given(fields, Symbol)
         && OpenOrdersWritten(before, rows, events, NonBlank(fields, UserId).value, UpperAt(fields, Symbol))
  }

  /**
    `processOrderCommand`: the processor of the command's message type runs. Whatever it is and
    however it ends, no row loses its intent or its exchange id; if it does not throw, every row it
    wrote agrees with its last event, a submit has recorded and published its order, a cancel has been
    answered, and a cancel-all has dealt with exactly the open orders.
   */
  method ProcessOrderCommand(store: OrderStore, lib: Library, fields: Fields, answers: Answers)
      returns (outcome: Outcome)
    requires store.Valid() && store.Now().attempt.Idle?
    modifies store
    ensures store.Valid() && store.Now().attempt.Idle? && store.Grows() && KeepsOrders(old(store.rows), store.rows)
    ensures outcome.Threw? ==> Interrupted(old(store.history), store.history) || LacksField(fields)
    ensures !outcome.Threw? ==>
              Established(lib, fields, old(store.rows), old(store.published), store.rows, store.events, store.published)
  {
    hide KindOf, KeepsOrders, Recorded, OrderOf, NonBlank, WrittenMatch, OpenOrdersWritten, UpperAt;
    hide SubmitWritten, CancelWritten;
    LackingMeans(lib, fields);
    match KindOf(fields) {
      case Cancel => outcome := RunCancel(store, fields, answers);
      case CancelAll => outcome := RunCancelAll(store, fields, answers);
      case Submit => outcome := RunSubmit(store, lib, fields, answers);
    }
  }
}
