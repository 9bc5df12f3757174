/**
  Processing cancel and cancel-all commands. A row is written first and its event stored after it,
  then the event is published; any of the calls may fail.
 */
module CancelProcessor {
  import opened Wrappers
  import opened Orders
  import opened Placement
  import opened Store
  import opened SubmitProcessor

  /** The exchange's answer to a cancel: what it reports about the order, or a failure. */
  datatype CancelAnswer = Reported(reply: Reply) | NotCanceled(message: string)

  datatype CancelAllAnswer = AllReported(replies: seq<Reply>) | NoneCanceled(message: string)

  const CREDENTIAL_FALLBACK := "Exchange credential not found"
  const CANCEL_FALLBACK := "Binance cancel failed"
  const CANCEL_ALL_FALLBACK := "Binance cancel-all failed"

  function Because(message: string, fallback: string): string {
    if message != "" then message else fallback
  }

  // ---------- the events and messages of one order ----------

  function OrderEvent(id: OrderId, row: Row, status: Status): Event {
    Event(id, row.intent.userId, status, PriceOf(row), QuantityOf(row))
  }

  function CanceledEvent(id: OrderId, row: Row, existing: Row): Event {
    Event(id, existing.intent.userId, row.status, row.avgFillPrice, Some(row.executedQty))
  }

  function CancelRejectedMessage(id: OrderId, row: Row, reason: string): Message {
    Message(id, row.intent.userId, CancelRejected, QuantityOf(row), PriceOf(row), row.binanceOrderId, Some(reason))
  }

  function CanceledMessage(id: OrderId, row: Row, existing: Row): Message {
    Message(id, existing.intent.userId, row.status, Some(row.executedQty), row.avgFillPrice, row.binanceOrderId, None)
  }

  /** The answer to a cancel of an order that is not the user's, or not there. */
  function NotFoundMessage(id: OrderId, userId: string, existing: Option<Row>): Message {
    Message(id, userId, CancelRejected,
            if existing.Some? then QuantityOr(existing.value, Some(0.0)) else Some(0.0),
            if existing.Some? then existing.value.avgFillPrice else None, None, Some(Reason("", OrderNotFound)))
  }

  function FinishedMessage(id: OrderId, row: Row): Message {
    Message(id, row.intent.userId, row.status, QuantityOf(row), row.avgFillPrice, row.binanceOrderId, None)
  }

  // ---------- one order ----------

  /** Only rows changed, if anything: no attempt was begun, none was lost, and no saved id was erased. */
  ghost predicate OnlyRows(s: State, s': State) {
    s' == s.(rows := s'.rows)
  }

  /** As far as attempts go nothing has happened. */
  ghost predicate SameAttempts(s: State, s': State) {
    s'.attempt == s.attempt && s'.placed == s.placed && s'.lost == s.lost
  }

  /** One row differs at most, and its intent is kept. */
  ghost predicate Confined(rows: Rows, rows': Rows, id: OrderId) {
    KeepsIntents(rows, rows') && OnlyTouches(rows, rows', {id})
  }

  /**
    Updating one row outside any attempt, without touching its intent. A row written without the
    exchange id it had is the one thing that can erase a saved id.
   */
  method Update(store: OrderStore, id: OrderId, row: Row) returns (done: bool)
    requires store.Valid() && store.Now().attempt.Idle? && id in store.rows
    requires row.intent == store.rows[id].intent
    modifies store`rows, store`history
    ensures store.Valid() && store.Grows() && SameAttempts(old(store.Now()), store.Now())
    ensures !done ==> Interrupted(old(store.history), store.history)
    ensures done ==> store.rows == old(store.rows)[id := row]
    ensures store.rows == old(store.rows) || store.rows == old(store.rows)[id := row]
    ensures Confined(old(store.rows), store.rows, id)
    ensures row.binanceOrderId.Some? || id !in old(store.Now()).saved ==> OnlyRows(old(store.Now()), store.Now())
    ensures row.binanceOrderId.Some? || old(store.rows)[id].binanceOrderId.None? ==>
              Harmless(old(store.rows), store.rows, {id}) && OnlyRows(old(store.Now()), store.Now())
  {
    hide KeepsIntents, KeepsExchangeIds, OnlyTouches, Run, Fresh;
    WritesNothing(store.rows, id);
    OneRowConfined(store.rows, id, row);
    store.SavedIsRecorded();
    done := store.Write(Background(store.rows[id := row]), id, row);
  }

  lemma OneRowConfined(rows: Rows, id: OrderId, row: Row)
    requires id in rows && row.intent == rows[id].intent
    ensures Confined(rows, rows[id := row], id)
    ensures row.binanceOrderId.Some? || rows[id].binanceOrderId.None? ==> Harmless(rows, rows[id := row], {id})
  {
  }

  method MarkCancelPending(store: OrderStore, id: OrderId, existing: Row) returns (done: bool)
    requires store.Valid() && store.Now().attempt.Idle? && id in store.rows
    modifies store`rows, store`events, store`history
    ensures store.Valid() && store.Grows() && OnlyRows(old(store.Now()), store.Now())
    ensures !done ==> Interrupted(old(store.history), store.history)
    ensures done ==> && store.rows == old(store.rows)[id := CancelPendingRow(old(store.rows)[id])]
                     && store.events == old(store.events) + [OrderEvent(id, existing, CancelPending)]
    ensures done ==>
              var n := |old(store.events)|;
              && store.rows[id] == old(store.rows)[id].(status := CancelPending, errorMsg := None)
              && store.events[n] == Event(id, existing.intent.userId, CancelPending,
                   if existing.avgFillPrice.Some? then existing.avgFillPrice else existing.intent.price,
                   if existing.executedQty > 0.0 then Some(existing.executedQty) else existing.intent.quantity)
    ensures store.events != old(store.events) ==>
              store.rows == old(store.rows)[id := CancelPendingRow(old(store.rows)[id])]
    ensures Harmless(old(store.rows), store.rows, {id})
  {
    hide Harmless, Run, Fresh;
    done := Update(store, id, CancelPendingRow(store.rows[id]));
    if done {
      done := store.CreateEvent(OrderEvent(id, existing, CancelPending));
    }
  }

  method RejectCancelOrder(store: OrderStore, id: OrderId, existing: Row, reason: string) returns (done: bool)
    requires store.Valid() && store.Now().attempt.Idle? && id in store.rows
    modifies store
    ensures store.Valid() && store.Grows() && OnlyRows(old(store.Now()), store.Now())
    ensures !done ==> Interrupted(old(store.history), store.history)
    ensures done ==> && store.rows == old(store.rows)[id := CancelRejectedRow(old(store.rows)[id], reason)]
                     && store.events == old(store.events) + [OrderEvent(id, existing, CancelRejected)]
                     && store.published == old(store.published) + [CancelRejectedMessage(id, existing, reason)]
    ensures done ==>
              var (n, m) := (|old(store.events)|, |old(store.published)|);
              var price := if existing.avgFillPrice.Some? then existing.avgFillPrice else existing.intent.price;
              var quantity := if existing.executedQty > 0.0 then Some(existing.executedQty)
                              else existing.intent.quantity;
              && store.rows[id] == old(store.rows)[id].(status := CancelRejected, errorMsg := Some(reason))
              && store.events[n] == Event(id, existing.intent.userId, CancelRejected, price, quantity)
              && store.published[m] == Message(id, existing.intent.userId, CancelRejected, quantity, price,
                   existing.binanceOrderId, Some(reason))
    ensures store.published != old(store.published) ==>
              && store.rows == old(store.rows)[id := CancelRejectedRow(old(store.rows)[id], reason)]
              && store.events == old(store.events) + [OrderEvent(id, existing, CancelRejected)]
    ensures Harmless(old(store.rows), store.rows, {id})
  {
    hide Harmless, Run, Fresh;
    done := Update(store, id, CancelRejectedRow(store.rows[id], reason));
    if done {
      done := store.CreateEvent(OrderEvent(id, existing, CancelRejected));
    }
    if done {
      done := store.Publish(CancelRejectedMessage(id, existing, reason));
    }
  }

  /** Only a reply without an exchange id, on a row that learnt its id since it was read, erases that id. */
  method PersistCanceledOrder(store: OrderStore, id: OrderId, existing: Row, reply: Reply) returns (done: bool)
    requires store.Valid() && store.Now().attempt.Idle? && id in store.rows
    modifies store
    ensures store.Valid() && store.Grows() && SameAttempts(old(store.Now()), store.Now())
    ensures !done ==> Interrupted(old(store.history), store.history)
    ensures var row := CanceledRow(old(store.rows)[id], existing, reply);
            done ==> && store.rows == old(store.rows)[id := row]
                     && store.events == old(store.events) + [CanceledEvent(id, row, existing)]
                     && store.published == old(store.published) + [CanceledMessage(id, row, existing)]
    ensures var row := CanceledRow(old(store.rows)[id], existing, reply);
            store.published != old(store.published) ==>
              && store.rows == old(store.rows)[id := row]
              && store.events == old(store.events) + [CanceledEvent(id, row, existing)]
    ensures done ==>
              var (row, n, m) := (store.rows[id], |old(store.events)|, |old(store.published)|);
              && row.intent == old(store.rows)[id].intent && row.errorMsg == None
              && row.status == (if reply.status.GetOr("") == "" then Canceled else NormalizeOrderStatus(reply.status))
              && row.binanceOrderId == (if reply.orderId.Some? then reply.orderId else existing.binanceOrderId)
              && row.executedQty == (if reply.executedQty.Some? then reply.executedQty.value else existing.executedQty)
              && row.cummulativeQuoteQty.Some?
              && row.cummulativeQuoteQty.value ==
                   (if reply.cummulativeQuoteQty.Some? then reply.cummulativeQuoteQty.value
                    else if existing.cummulativeQuoteQty.Some? then existing.cummulativeQuoteQty.value else 0.0)
              && row.avgFillPrice == (if row.executedQty > 0.0 && row.cummulativeQuoteQty.value > 0.0
                                      then Some(row.cummulativeQuoteQty.value / row.executedQty)
                                      else existing.avgFillPrice)
              && store.events[n] ==
                   Event(id, existing.intent.userId, row.status, row.avgFillPrice, Some(row.executedQty))
              && store.published[m] == Message(id, existing.intent.userId, row.status, Some(row.executedQty),
                   row.avgFillPrice, row.binanceOrderId, None)
    ensures store.rows == old(store.rows) ||
            store.rows == old(store.rows)[id := CanceledRow(old(store.rows)[id], existing, reply)]
    ensures Confined(old(store.rows), store.rows, id)
    ensures reply.orderId.Some? || existing.binanceOrderId.Some? || id !in old(store.Now()).saved ==>
              OnlyRows(old(store.Now()), store.Now())
    ensures reply.orderId.Some? || existing.binanceOrderId.Some? || old(store.rows)[id].binanceOrderId.None? ==>
              Harmless(old(store.rows), store.rows, {id}) && OnlyRows(old(store.Now()), store.Now())
  {
    hide Harmless, Confined, Run, Fresh, CanceledRow, Divide, Quotient;
    hide StatusText, CancelStatus, NormalizeOrderStatus, OptionalText;
    CanceledRowKeeps(store.rows[id], existing, reply);
    CanceledRowMeans(store.rows[id], existing, reply);
    CanceledStatusMeans(store.rows[id], existing, reply);
    var row := CanceledRow(store.rows[id], existing, reply);
    done := Update(store, id, row);
    if done {
      done := store.CreateEvent(CanceledEvent(id, row, existing));
    }
    if done {
      done := store.Publish(CanceledMessage(id, row, existing));
    }
  }

  lemma CanceledRowKeeps(current: Row, existing: Row, reply: Reply)
    ensures CanceledRow(current, existing, reply).intent == current.intent
    ensures CanceledRow(current, existing, reply).status == CancelStatus(reply)
    ensures CanceledRow(current, existing, reply).binanceOrderId.Some? <==>
            reply.orderId.Some? || existing.binanceOrderId.Some?
  {
    hide CancelStatus, StatusText, OptionalText, Divide;
  }

  // ---------- cancel ----------

  datatype CancelDecision = Unknown | Finished | RefuseCancel(why: Why, reason: string) | Persist(reply: Reply)

  function DecideCancel(row: Option<Row>, userId: string, credential: Option<string>,
      answer: CancelAnswer): CancelDecision {
    if row.None? || row.value.intent.userId != userId then Unknown
    else if Terminal(row.value.status) then Finished
    else if credential.Some? then RefuseCancel(Credential, Because(credential.value, CREDENTIAL_FALLBACK))
    else
      match answer
      case NotCanceled(message) => RefuseCancel(Exchange, Because(message, CANCEL_FALLBACK))
      case Reported(reply) => Persist(reply)
  }

  function CancelOutcome(decision: CancelDecision): Outcome {
    match decision
    case Unknown => Refused(OrderNotFound)
    case Finished => Skipped
    case RefuseCancel(why, _) => Refused(why)
    case Persist(_) => CancelDone
  }

  /** The events of a cancel that was attempted: the pending mark, and how it ended. */
  function CancelEvents(id: OrderId, row: Row, decision: CancelDecision): seq<Event> {
    match decision
    case Unknown => []
    case Finished => []
    case RefuseCancel(_, _) => [OrderEvent(id, row, CancelPending), OrderEvent(id, row, CancelRejected)]
    case Persist(reply) =>
      [OrderEvent(id, row, CancelPending), CanceledEvent(id, CancelLeaves(row, decision), row)]
  }

  /** The row a completed cancel leaves, for each decision. */
  function CancelLeaves(row: Row, decision: CancelDecision): Row {
    match decision
    case Unknown => row
    case Finished => row
    case RefuseCancel(_, reason) => CancelRejectedRow(row, reason)
    case Persist(reply) => CanceledRow(CancelPendingRow(row), row, reply)
  }

  function CancelMessage(id: OrderId, userId: string, row: Option<Row>, decision: CancelDecision): Message
    requires !decision.Unknown? ==> row.Some?
  {
    match decision
    case Unknown => NotFoundMessage(id, userId, row)
    case Finished => FinishedMessage(id, row.value)
    case RefuseCancel(_, reason) => CancelRejectedMessage(id, row.value, reason)
    case Persist(reply) => CanceledMessage(id, CancelLeaves(row.value, decision), row.value)
  }

  /**
    `processOrderCancelCommand`. A missing, foreign or finished order is only answered; any other
    order is first marked as being canceled and then rejected or settled as the exchange reports.
   */
  method ProcessCancel(store: OrderStore, id: OrderId, userId: string, credential: Option<string>, answer: CancelAnswer)
    returns (outcome: Outcome)
    requires store.Valid() && store.Now().attempt.Idle?
    modifies store
    ensures store.Valid() && store.Grows() && OnlyRows(old(store.Now()), store.Now())
    ensures outcome.Threw? ==> Interrupted(old(store.history), store.history)
    ensures Harmless(old(store.rows), store.rows, {id})
    ensures var (row, decision) :=
        (RowAt(old(store.rows), id), DecideCancel(RowAt(old(store.rows), id), userId, credential, answer));
            !outcome.Threw? ==>
              && outcome == CancelOutcome(decision)
              && store.published == old(store.published) + [CancelMessage(id, userId, row, decision)]
              && (if decision.Unknown? || decision.Finished?
                  then store.rows == old(store.rows) && store.events == old(store.events)
                  else store.rows == old(store.rows)[id := CancelLeaves(row.value, decision)] &&
                       EventMatchesRow(store.rows, store.events, id))
    ensures !outcome.Threw? ==>
              var (row, n, m) := (RowAt(old(store.rows), id), |old(store.events)|, |old(store.published)|);
              var known := row.Some? && row.value.intent.userId == userId;
              var open := known && row.value.status !in {Filled, Canceled, Rejected, Expired};
              && |store.published| == m + 1 && old(store.published) <= store.published
              && store.published[m].orderId == id && store.published[m].userId == userId
              && (!known ==>
                    && outcome == Refused(OrderNotFound)
                    && store.rows == old(store.rows) && store.events == old(store.events)
                    && store.published[m].status == CancelRejected
                    && store.published[m].reason == Some("Order not found"))
              && (known && !open ==>
                    && outcome == Skipped && store.rows == old(store.rows) && store.events == old(store.events)
                    && store.published[m].status == row.value.status && store.published[m].reason == None
                    && store.published[m].binanceOrderId == row.value.binanceOrderId)
              && (open ==>
                    && id in store.rows && |store.events| == n + 2 && old(store.events) <= store.events
                    && store.events[n].orderId == id && store.events[n].status == CancelPending
                    && store.events[n + 1].orderId == id && store.events[n + 1].status == store.rows[id].status
                    && store.events[n + 1].price == store.published[m].price
                    && store.events[n + 1].quantity == store.published[m].quantity
                    && store.published[m].status == store.rows[id].status
                    && store.published[m].binanceOrderId == store.rows[id].binanceOrderId)
              && (open && credential.Some? ==>
                    && outcome == Refused(Credential) && store.rows[id].status == CancelRejected
                    && store.rows[id].binanceOrderId == row.value.binanceOrderId
                    && store.rows[id].errorMsg ==
                         Some(if credential.value != "" then credential.value else "Exchange credential not found"))
              && (open && credential.None? && answer.NotCanceled? ==>
                    && outcome == Refused(Exchange) && store.rows[id].status == CancelRejected
                    && store.rows[id].binanceOrderId == row.value.binanceOrderId
                    && store.rows[id].errorMsg ==
                         Some(if answer.message != "" then answer.message else "Binance cancel failed"))
              && (open && credential.None? && answer.Reported? ==>
                    && outcome == CancelDone && store.rows[id].errorMsg == None
                    && store.rows[id].binanceOrderId ==
                         (if answer.reply.orderId.Some? then answer.reply.orderId else row.value.binanceOrderId)
                    && store.rows[id].executedQty ==
                         (if answer.reply.executedQty.Some? then answer.reply.executedQty.value
                          else row.value.executedQty)
                    && store.rows[id].status ==
                         (if answer.reply.status.GetOr("") == "" then Canceled
                          else NormalizeOrderStatus(answer.reply.status)))
  {
    hide Run, Fresh, LastEvent, Harmless, CanceledRow, NormalizeOrderStatus;
    ghost var rows := store.rows;
    WritesNothing(rows, id);
    var found := store.FindUnique(id);
    if found.Err? {
      return Threw;
    }
    if found.value.None? || found.value.value.intent.userId != userId {
      var done := store.Publish(NotFoundMessage(id, userId, found.value));
      return if done then Refused(OrderNotFound) else Threw;
    }
    var existing := found.value.value;
    if Terminal(existing.status) {
      var done := store.Publish(FinishedMessage(id, existing));
      return if done then Skipped else Threw;
    }
    CancelMeans(id, existing, credential, answer);
    hide CancelMessage, CancelLeaves, CancelEvents, EventMatchesRow, CancelOutcome, DecideCancel;
    outcome := CancelOpenOrder(store, id, existing, credential, answer);
  }

  /** What becomes of an open order, its two events and its message, case by case. */
  lemma CancelMeans(id: OrderId, row: Row, credential: Option<string>, answer: CancelAnswer)
    requires !Terminal(row.status)
    ensures var decision := DecideCancel(Some(row), row.intent.userId, credential, answer);
            var (after, message, events) := (CancelLeaves(row, decision),
                CancelMessage(id, row.intent.userId, Some(row), decision), CancelEvents(id, row, decision));
            && !decision.Unknown? && !decision.Finished?
            && |events| == 2 && events[0].orderId == id && events[0].status == CancelPending
            && events[1].orderId == id && events[1].status == after.status
            && events[1].price == message.price && events[1].quantity == message.quantity
            && message.orderId == id && message.userId == row.intent.userId && message.status == after.status
            && message.binanceOrderId == after.binanceOrderId
            && (credential.Some? ==>
                  && CancelOutcome(decision) == Refused(Credential) && after.status == CancelRejected
                  && after.binanceOrderId == row.binanceOrderId
                  && after.errorMsg ==
                       Some(if credential.value != "" then credential.value else "Exchange credential not found"))
            && (credential.None? && answer.NotCanceled? ==>
                  && CancelOutcome(decision) == Refused(Exchange) && after.status == CancelRejected
                  && after.binanceOrderId == row.binanceOrderId
                  && after.errorMsg ==
                       Some(if answer.message != "" then answer.message else "Binance cancel failed"))
            && (credential.None? && answer.Reported? ==>
                  && CancelOutcome(decision) == CancelDone && after.errorMsg == None
                  && after.binanceOrderId ==
                       (if answer.reply.orderId.Some? then answer.reply.orderId else row.binanceOrderId)
                  && after.executedQty ==
                       (if answer.reply.executedQty.Some? then answer.reply.executedQty.value else row.executedQty)
                  && after.status ==
                       (if answer.reply.status.GetOr("") == "" then Canceled
                        else NormalizeOrderStatus(answer.reply.status)))
  {
    if answer.Reported? {
      CanceledRowMeans(CancelPendingRow(row), row, answer.reply);
      CanceledStatusMeans(CancelPendingRow(row), row, answer.reply);
    }
    hide CanceledRow, NormalizeOrderStatus;
  }

  /** The cancel of an order that is still open. */
  method CancelOpenOrder(store: OrderStore, id: OrderId, existing: Row, credential: Option<string>,
      answer: CancelAnswer)
    returns (outcome: Outcome)
    requires store.Valid() && store.Now().attempt.Idle? && RowAt(store.rows, id) == Some(existing)
        && !Terminal(existing.status)
    modifies store
    ensures store.Valid() && store.Grows() && OnlyRows(old(store.Now()), store.Now())
    ensures outcome.Threw? ==> Interrupted(old(store.history), store.history)
    ensures Harmless(old(store.rows), store.rows, {id})
    ensures var decision := DecideCancel(Some(existing), existing.intent.userId, credential, answer);
            !outcome.Threw? ==>
              && outcome == CancelOutcome(decision)
              && store.published == old(store.published) +
                  [CancelMessage(id, existing.intent.userId, Some(existing), decision)]
              && store.rows == old(store.rows)[id := CancelLeaves(existing, decision)]
              && EventMatchesRow(store.rows, store.events, id)
              && store.events == old(store.events) + CancelEvents(id, existing, decision)
    ensures store.published != old(store.published) ==> EventMatchesRow(store.rows, store.events, id)
  {
    hide CancelRejectedMessage, CanceledMessage, CanceledRow, Run, Fresh, LastEvent, Because, Harmless, Terminal;
    hide OrderEvent, CanceledEvent, EventMatchesRow;
    ghost var rows := store.rows;
    var done := MarkCancelPending(store, id, existing);
    if !done {
      return Threw;
    }
    ghost var marked := store.rows;
    outcome := SettleCancel(store, id, existing, credential, answer);
    HarmlessComposes(rows, marked, store.rows, {id});
  }

  /** The rest of it once the row is marked. */
  method SettleCancel(store: OrderStore, id: OrderId, existing: Row, credential: Option<string>, answer: CancelAnswer)
    returns (outcome: Outcome)
    requires store.Valid() && store.Now().attempt.Idle? && RowAt(store.rows, id) == Some(CancelPendingRow(existing))
        && !Terminal(existing.status)
    modifies store
    ensures store.Valid() && store.Grows() && OnlyRows(old(store.Now()), store.Now())
    ensures outcome.Threw? ==> Interrupted(old(store.history), store.history)
    ensures Harmless(old(store.rows), store.rows, {id})
    ensures var decision := DecideCancel(Some(existing), existing.intent.userId, credential, answer);
            !outcome.Threw? ==>
              && outcome == CancelOutcome(decision)
              && store.published == old(store.published) +
                  [CancelMessage(id, existing.intent.userId, Some(existing), decision)]
              && store.rows == old(store.rows)[id := CancelLeaves(existing, decision)]
              && EventMatchesRow(store.rows, store.events, id)
              && [OrderEvent(id, existing, CancelPending)] + store.events[|old(store.events)|..] ==
                   CancelEvents(id, existing, decision)
    ensures store.published != old(store.published) ==> EventMatchesRow(store.rows, store.events, id)
  {
    hide CancelRejectedMessage, CanceledMessage, CanceledRow, Run, Fresh, LastEvent, Because, Harmless, Terminal;
    var done;
    ghost var events := store.events;
    if credential.Some? || answer.NotCanceled? {
      var (why, reason) :=
        if credential.Some? then (Credential, Because(credential.value, CREDENTIAL_FALLBACK))
        else (Exchange, Because(answer.message, CANCEL_FALLBACK));
      LastEventOfAppend(events, OrderEvent(id, existing, CancelRejected), id);
      done := RejectCancelOrder(store, id, existing, reason);
      outcome := if done then Refused(why) else Threw;
    } else {
      var row := CanceledRow(store.rows[id], existing, answer.reply);
      LastEventOfAppend(events, CanceledEvent(id, row, existing), id);
      done := PersistCanceledOrder(store, id, existing, answer.reply);
      outcome := if done then CancelDone else Threw;
    }
  }
}
