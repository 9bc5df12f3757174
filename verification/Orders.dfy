/** Order rows, order events and published messages, and the row each kind of write leaves behind. */
module Orders {
  import opened Wrappers
  import opened Text

  datatype Status =
    | Received | Pending | Submitted | PartiallyFilled | Filled | Canceled | Rejected | Expired
    | CancelRequested | CancelPending | CancelRejected | CancelAppendFailed | StreamAppendFailed

  type OrderId = string

  /** What the user asked for; decimals as the decimal library reads them. */
  datatype Intent = Intent(
    userId: string, symbol: string, side: string, orderType: string,
    quantity: Option<real>, quoteOrderQty: Option<real>, price: Option<real>, stopPrice: Option<real>,
    timeInForce: Option<string>)

  datatype Row = Row(
    intent: Intent, status: Status, rawStatus: Option<string>, binanceOrderId: Option<int>,
    executedQty: real, cummulativeQuoteQty: Option<real>, avgFillPrice: Option<real>,
    lastTradeQty: Option<real>, lastTradePrice: Option<real>, errorMsg: Option<string>)

  type Rows = map<OrderId, Row>

  datatype Order = Order(orderId: OrderId, intent: Intent)

  datatype Event = Event(orderId: OrderId, userId: string, status: Status, price: Option<real>, quantity: Option<real>)

  datatype Message = Message(
    orderId: OrderId, userId: string, status: Status, quantity: Option<real>, price: Option<real>,
    binanceOrderId: Option<int>, reason: Option<string>)

  /** An exchange answer about one order; every part may be missing. */
  datatype Reply = Reply(
    orderId: Option<int>, origClientOrderId: Option<string>, clientOrderId: Option<string>, status: Option<string>,
    executedQty: Option<real>, cummulativeQuoteQty: Option<real>, lastFillQty: Option<real>,
        lastFillPrice: Option<real>)

  // ---------- statuses ----------

  /** `isAlreadySubmitted`. */
  predicate AlreadySubmitted(row: Option<Row>) {
    row.Some? && (row.value.binanceOrderId.Some? || row.value.status in {Submitted, PartiallyFilled, Filled})
  }

  predicate Terminal(status: Status) {
    status in {Filled, Canceled, Rejected, Expired}
  }

  predicate CancelOpen(status: Status) {
    status in {Received, Pending, Submitted, PartiallyFilled, CancelRequested, CancelPending, CancelRejected,
        CancelAppendFailed}
  }

  /** A trimmed text, absent when blank. */
  function OptionalText(text: Option<string>): Option<string> {
    if text.None? || Trim(text.value) == "" then None else Some(Trim(text.value))
  }

  /** `normalizeOrderStatus`: everything unknown counts as submitted. */
  function NormalizeOrderStatus(text: Option<string>): Status {
    var token := Upper(OptionalText(text).GetOr(""));
    if token == "FILLED" then Filled
    else if token == "PARTIALLY_FILLED" then PartiallyFilled
    else if token == "CANCELED" then Canceled
    else if token == "EXPIRED" then Expired
    else if token == "REJECTED" then Rejected
    else Submitted
  }

  /** Which status an exchange's text spells: one of five names, in any case and with spaces around, or submitted. */
  lemma StatusNames(text: Option<string>)
    ensures var (status, name) := (NormalizeOrderStatus(text), Upper(Trim(text.GetOr(""))));
            && (status == Filled <==> name == "FILLED")
            && (status == PartiallyFilled <==> name == "PARTIALLY_FILLED")
            && (status == Canceled <==> name == "CANCELED")
            && (status == Expired <==> name == "EXPIRED")
            && (status == Rejected <==> name == "REJECTED")
            && (status == Submitted <==>
                name !in {"FILLED", "PARTIALLY_FILLED", "CANCELED", "EXPIRED", "REJECTED"})
  {
    EmptyStaysEmpty();
    hide Trim, Upper;
  }

  lemma EmptyStaysEmpty()
    ensures Trim("") == "" && Upper("") == ""
  {
  }

  // ---------- decimals ----------

  function Quotient(top: real, bottom: real): real
    requires bottom != 0.0
  {
    top / bottom
  }

  /** `divideDecimalStrings`: nothing unless both sides are positive. */
  function Divide(top: Option<real>, bottom: Option<real>): Option<real> {
    if top.GetOr(0.0) > 0.0 && bottom.GetOr(0.0) > 0.0 then Some(Quotient(top.value, bottom.value)) else None
  }

  /** `quantityFromExisting` with the command it falls back to. */
  function QuantityOr(row: Row, fallback: Option<real>): Option<real> {
    if row.executedQty > 0.0 then Some(row.executedQty) else OrElse(row.intent.quantity, fallback)
  }

  function QuantityOf(row: Row): Option<real> {
    QuantityOr(row, None)
  }

  /** The price an event about a stored order carries. */
  function PriceOf(row: Row): Option<real> {
    OrElse(row.avgFillPrice, row.intent.price)
  }

  // ---------- the rows that writes leave ----------

  function NewRow(intent: Intent, status: Status): Row {
    Row(intent, status, None, None, 0.0, Some(0.0), None, None, None, None)
  }

  function RowAt(rows: Rows, id: OrderId): Option<Row> {
    if id in rows then Some(rows[id]) else None
  }

  /** The row an upsert starts from: the stored one, or a new one with the command's intent. */
  function Base(rows: Rows, order: Order): Row {
    RowAt(rows, order.orderId).GetOr(NewRow(order.intent, Pending))
  }

  function PendingRow(rows: Rows, order: Order): Row {
    Base(rows, order).(status := Pending)
  }

  function RejectedRow(rows: Rows, order: Order, reason: string): Row {
    Base(rows, order).(status := Rejected, errorMsg := Some(reason))
  }

  function SubmittedRow(rows: Rows, order: Order, exchangeId: int, reply: Reply): Row {
    Base(rows, order).(
      status := NormalizeOrderStatus(reply.status),
      rawStatus := OptionalText(reply.status),
      binanceOrderId := Some(exchangeId),
      executedQty := reply.executedQty.GetOr(0.0),
      cummulativeQuoteQty := Some(reply.cummulativeQuoteQty.GetOr(0.0)),
      avgFillPrice := Divide(reply.cummulativeQuoteQty, reply.executedQty),
      lastTradeQty := reply.lastFillQty,
      lastTradePrice := reply.lastFillPrice)
  }

  function CancelStatus(reply: Reply): Status {
    NormalizeOrderStatus(if reply.status == Some("") then Some("CANCELED") else Some(reply.status.GetOr("CANCELED")))
  }

  /** `persistCanceledOrder`: what the reply does not say is taken from the row as first read. */
  function CanceledRow(current: Row, existing: Row, reply: Reply): Row {
    var executedQty := reply.executedQty.GetOr(existing.executedQty);
    var quote := OrElse(reply.cummulativeQuoteQty, existing.cummulativeQuoteQty);
    current.(
      status := CancelStatus(reply),
      rawStatus := OrElse(OptionalText(reply.status), Some(StatusText(CancelStatus(reply)))),
      binanceOrderId := OrElse(reply.orderId, existing.binanceOrderId),
      executedQty := executedQty,
      cummulativeQuoteQty := Some(quote.GetOr(0.0)),
      avgFillPrice := OrElse(Divide(quote, Some(executedQty)), existing.avgFillPrice),
      errorMsg := None)
  }

  /** What an accepted order's row says, field by field. */
  lemma SubmittedRowMeans(rows: Rows, order: Order, exchangeId: int, reply: Reply)
    ensures var row := SubmittedRow(rows, order, exchangeId, reply);
            && row.intent == (if order.orderId in rows then rows[order.orderId].intent else order.intent)
            && row.binanceOrderId == Some(exchangeId)
            && row.status == NormalizeOrderStatus(reply.status)
            && row.rawStatus == (if Trim(reply.status.GetOr("")) == "" then None else Some(Trim(reply.status.value)))
            && row.executedQty == (if reply.executedQty.Some? then reply.executedQty.value else 0.0)
            && row.cummulativeQuoteQty.Some?
            && row.cummulativeQuoteQty.value ==
                 (if reply.cummulativeQuoteQty.Some? then reply.cummulativeQuoteQty.value else 0.0)
            && row.avgFillPrice == (if row.executedQty > 0.0 && row.cummulativeQuoteQty.value > 0.0
                                    then Some(row.cummulativeQuoteQty.value / row.executedQty) else None)
            && row.lastTradeQty == reply.lastFillQty && row.lastTradePrice == reply.lastFillPrice
            && row.errorMsg == (if order.orderId in rows then rows[order.orderId].errorMsg else None)
  {
    EmptyStaysEmpty();
    hide NormalizeOrderStatus, Trim;
  }

  /** What a settled order's row says, field by field: the reply where it speaks, the row first read otherwise. */
  lemma CanceledRowMeans(current: Row, existing: Row, reply: Reply)
    ensures var row := CanceledRow(current, existing, reply);
            && row.intent == current.intent
            && row.binanceOrderId == (if reply.orderId.Some? then reply.orderId else existing.binanceOrderId)
            && row.executedQty == (if reply.executedQty.Some? then reply.executedQty.value else existing.executedQty)
            && row.cummulativeQuoteQty.Some?
            && row.cummulativeQuoteQty.value ==
                 (if reply.cummulativeQuoteQty.Some? then reply.cummulativeQuoteQty.value
                  else if existing.cummulativeQuoteQty.Some? then existing.cummulativeQuoteQty.value else 0.0)
            && row.avgFillPrice == (if row.executedQty > 0.0 && row.cummulativeQuoteQty.value > 0.0
                                    then Some(row.cummulativeQuoteQty.value / row.executedQty)
                                    else existing.avgFillPrice)
            && row.lastTradeQty == current.lastTradeQty && row.lastTradePrice == current.lastTradePrice
            && row.errorMsg == None
  {
    hide NormalizeOrderStatus, OptionalText, StatusText;
  }

  /** Its status: a reply without any text counts as canceled, and the status' own name stands in for a blank text. */
  lemma CanceledStatusMeans(current: Row, existing: Row, reply: Reply)
    ensures var row := CanceledRow(current, existing, reply);
            && (reply.status.GetOr("") == "" ==> row.status == Canceled && row.rawStatus == Some("CANCELED"))
            && (reply.status.GetOr("") != "" ==> row.status == NormalizeOrderStatus(reply.status))
            && (reply.status.GetOr("") != "" && Trim(reply.status.value) == "" ==>
                row.status == Submitted && row.rawStatus == Some("SUBMITTED"))
            && (reply.status.GetOr("") != "" && Trim(reply.status.value) != "" ==>
                row.rawStatus == Some(Trim(reply.status.value)))
  {
    EmptyStaysEmpty();
    var canceled := "CANCELED";
    NothingToTrim(canceled);
    assert Upper(canceled) == canceled;
    StatusNames(Some(canceled));
    StatusNames(reply.status);
    hide Trim, Upper, NormalizeOrderStatus;
  }

  function CancelPendingRow(row: Row): Row {
    row.(status := CancelPending, errorMsg := None)
  }

  function CancelRejectedRow(row: Row, reason: string): Row {
    row.(status := CancelRejected, errorMsg := Some(reason))
  }

  /** The stored spelling of a status, which stands in for a raw status the exchange did not give. */
  function StatusText(status: Status): string {
    match status
    case Received => "RECEIVED"
    case Pending => "PENDING"
    case Submitted => "SUBMITTED"
    case PartiallyFilled => "PARTIALLY_FILLED"
    case Filled => "FILLED"
    case Canceled => "CANCELED"
    case Rejected => "REJECTED"
    case Expired => "EXPIRED"
    case CancelRequested => "CANCEL_REQUESTED"
    case CancelPending => "CANCEL_PENDING"
    case CancelRejected => "CANCEL_REJECTED"
    case CancelAppendFailed => "CANCEL_APPEND_FAILED"
    case StreamAppendFailed => "STREAM_APPEND_FAILED"
  }

  // ---------- what no write may do ----------

  /** Rows are never deleted, and what the user asked for is never rewritten. */
  predicate KeepsIntents(rows: Rows, rows': Rows) {
    forall id :: id in rows ==> id in rows' && rows'[id].intent == rows[id].intent
  }

  /** A recorded exchange id is never forgotten. */
  predicate KeepsExchangeIds(rows: Rows, rows': Rows) {
    forall id :: id in rows && rows[id].binanceOrderId.Some? ==> id in rows' && rows'[id].binanceOrderId.Some?
  }

  /** Only the given orders' rows may differ. */
  ghost predicate OnlyTouches(rows: Rows, rows': Rows, ids: set<OrderId>) {
    forall id :: id !in ids ==> RowAt(rows', id) == RowAt(rows, id)
  }

  /** One row is written, its intent is kept and so is its exchange id. */
  lemma OneRowWritten(rows: Rows, id: OrderId, row: Row)
    requires id in rows ==> row.intent == rows[id].intent
    requires id in rows && rows[id].binanceOrderId.Some? ==> row.binanceOrderId.Some?
    ensures KeepsIntents(rows, rows[id := row]) && KeepsExchangeIds(rows, rows[id := row])
    ensures OnlyTouches(rows, rows[id := row], {id})
  {
  }

  // ---------- events ----------

  function LastEvent(events: seq<Event>, id: OrderId): Option<Event> {
    if events == [] then None
    else if events[|events| - 1].orderId == id then Some(events[|events| - 1])
    else LastEvent(events[..|events| - 1], id)
  }

  /** The last stored event of an order carries its row's status and user. */
  predicate EventMatchesRow(rows: Rows, events: seq<Event>, id: OrderId) {
    && id in rows && LastEvent(events, id).Some?
    && LastEvent(events, id).value.status == rows[id].status
  }

  lemma LastEventOfAppend(events: seq<Event>, e: Event, id: OrderId)
    ensures LastEvent(events + [e], id) == if e.orderId == id then Some(e) else LastEvent(events, id)
  {
    assert (events + [e])[..|events|] == events;
  }
}
