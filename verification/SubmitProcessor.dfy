/**
  Processing a submit command. The decision is a function of the stored row and of what the
  validator, the credential store and the exchange answer; the method carries it out one awaited
  call after another, any of which may fail.
 */
module SubmitProcessor {
  import opened Wrappers
  import opened Orders
  import opened Placement
  import opened Store

  datatype Why = FilterCheck | Filters | Credential | Exchange | OrderNotFound

  datatype Outcome = Skipped | Refused(why: Why) | SubmitDone | CancelDone | CancelAllDone(affected: nat,
      canceled: nat) | Threw

  /** The validator's answer; without a validator nothing is checked. */
  datatype Check = NotConfigured | Passed | Violated(errors: string) | CheckFailed(message: string)

  /** The exchange's answer; a failed call may still have placed the order. */
  datatype Answer = Placed(exchangeId: int, reply: Reply) | Failed(message: string, unheard: bool)

  datatype Decision = Skip | Refuse(why: Why, reason: string) | Place(exchangeId: int, reply: Reply)

  /** The JavaScript `message || fallback`. */
  function Reason(message: string, why: Why): string {
    if message != "" then message else
      match why
      case FilterCheck => "Exchange filter validation failed"
      case Filters => "Order violates Binance filters"
      case Credential => "Exchange credential not found"
      case Exchange => "Binance order failed"
      case OrderNotFound => "Order not found"
  }

  function Decide(row: Option<Row>, check: Check, credential: Option<string>, answer: Answer): Decision {
    if AlreadySubmitted(row) then Skip
    else if check.CheckFailed? then Refuse(FilterCheck, Reason(check.message, FilterCheck))
    else if check.Violated? then Refuse(Filters, Reason(check.errors, Filters))
    else if credential.Some? then Refuse(Credential, Reason(credential.value, Credential))
    else
      match answer
      case Failed(message, _) => Refuse(Exchange, Reason(message, Exchange))
      case Placed(exchangeId, reply) => Place(exchangeId, reply)
  }

  function OutcomeOf(decision: Decision): Outcome {
    match decision
    case Skip => Skipped
    case Refuse(why, _) => Refused(why)
    case Place(_, _) => SubmitDone
  }

  // ---------- what each decision writes ----------

  function SkipMessage(row: Row, order: Order): Message {
    Message(order.orderId, row.intent.userId, row.status, QuantityOr(row, order.intent.quantity), row.avgFillPrice,
            row.binanceOrderId, None)
  }

  function RejectEvent(order: Order): Event {
    Event(order.orderId, order.intent.userId, Rejected, None, order.intent.quantity)
  }

  function RejectMessage(order: Order, reason: string): Message {
    Message(order.orderId, order.intent.userId, Rejected, order.intent.quantity, None, None, Some(reason))
  }

  function SubmitEvent(order: Order, reply: Reply): Event {
    Event(order.orderId, order.intent.userId, NormalizeOrderStatus(reply.status),
          Divide(reply.cummulativeQuoteQty, reply.executedQty), OrElse(reply.executedQty, order.intent.quantity))
  }

  function SubmitMessage(order: Order, exchangeId: int, reply: Reply): Message {
    Message(order.orderId, order.intent.userId, NormalizeOrderStatus(reply.status),
            OrElse(reply.executedQty, order.intent.quantity),
            Divide(reply.cummulativeQuoteQty, reply.executedQty), Some(exchangeId), None)
  }

  /** What a completed submit leaves behind, for each decision: one row, one event and one message at most. */
  ghost predicate Carried(decision: Decision, order: Order, rows: Rows, events: seq<Event>, published: seq<Message>,
                          rows': Rows, events': seq<Event>, published': seq<Message>)
    requires decision.Skip? ==> order.orderId in rows
  {
    match decision
    case Skip =>
      rows' == rows && events' == events && published' == published + [SkipMessage(rows[order.orderId], order)]
    case Refuse(_, reason) =>
      && rows' == rows[order.orderId := RejectedRow(rows, order, reason)]
      && events' == events + [RejectEvent(order)]
      && published' == published + [RejectMessage(order, reason)]
    case Place(exchangeId, reply) =>
      && rows' == rows[order.orderId := SubmittedRow(rows, order, exchangeId, reply)]
      && events' == events + [SubmitEvent(order, reply)]
      && published' == published + [SubmitMessage(order, exchangeId, reply)]
  }

  /** The row says the command has been dealt with: an exchange id, a submitted status or a rejection. */
  predicate Recorded(rows: Rows, id: OrderId) {
    AlreadySubmitted(RowAt(rows, id)) || (id in rows && rows[id].status == Rejected)
  }

  lemma SubmitWrites(rows: Rows, order: Order, exchangeId: int, reply: Reply, reason: string)
    ensures var row := SubmittedRow(rows, order, exchangeId, reply);
            row.intent == Base(rows, order).intent && row.binanceOrderId == Some(exchangeId) &&
            row.status == SubmitEvent(order, reply).status
    ensures var row := RejectedRow(rows, order, reason);
            row.intent == Base(rows, order).intent && row.binanceOrderId == Base(rows, order).binanceOrderId &&
            row.status == RejectEvent(order).status
    ensures var row := PendingRow(rows, order);
            row.intent == Base(rows, order).intent && row.binanceOrderId == Base(rows, order).binanceOrderId
    ensures var pending := rows[order.orderId := PendingRow(rows, order)];
            && SubmittedRow(pending, order, exchangeId, reply) == SubmittedRow(rows, order, exchangeId, reply)
            && RejectedRow(pending, order, reason) == RejectedRow(rows, order, reason)
  {
    hide NormalizeOrderStatus, OptionalText, Divide;
  }

  /**
    A completed submit has recorded its order and published it, its last event (if it wrote one)
    carries the row's status, and it touched no other row and no intent.
   */
  lemma CarriedIsRecorded(decision: Decision, order: Order, rows: Rows, events: seq<Event>, published: seq<Message>,
                          rows': Rows, events': seq<Event>, published': seq<Message>)
    requires decision.Skip? ==> AlreadySubmitted(RowAt(rows, order.orderId))
    requires Carried(decision, order, rows, events, published, rows', events', published')
    ensures Recorded(rows', order.orderId)
    ensures |published'| == |published| + 1 && published' == published + [published'[|published|]]
    ensures published'[|published|].orderId == order.orderId &&
            published'[|published|].status == rows'[order.orderId].status
    ensures !decision.Skip? ==> EventMatchesRow(rows', events', order.orderId)
    ensures KeepsIntents(rows, rows') && KeepsExchangeIds(rows, rows') && OnlyTouches(rows, rows', {order.orderId})
  {
    hide SubmittedRow, RejectedRow, PendingRow, NormalizeOrderStatus, Divide, LastEvent, OnlyTouches;
    hide QuantityOr, KeepsIntents, KeepsExchangeIds;
    match decision {
      case Skip =>
        WritesNothing(rows, order.orderId);
      case Refuse(_, reason) =>
        SubmitWrites(rows, order, 0, Reply(None, None, None, None, None, None, None, None), reason);
        OneRowWritten(rows, order.orderId, RejectedRow(rows, order, reason));
        LastEventOfAppend(events, RejectEvent(order), order.orderId);
      case Place(exchangeId, reply) =>
        SubmitWrites(rows, order, exchangeId, reply, "");
        OneRowWritten(rows, order.orderId, SubmittedRow(rows, order, exchangeId, reply));
        LastEventOfAppend(events, SubmitEvent(order, reply), order.orderId);
    }
  }

  lemma WritesNothing(rows: Rows, id: OrderId)
    ensures KeepsIntents(rows, rows) && KeepsExchangeIds(rows, rows) && OnlyTouches(rows, rows, {id})
    ensures Harmless(rows, rows, {id})
  {
  }

  /** What even a failed submit respects. */
  ghost predicate Harmless(rows: Rows, rows': Rows, ids: set<OrderId>) {
    KeepsIntents(rows, rows') && KeepsExchangeIds(rows, rows') && OnlyTouches(rows, rows', ids)
  }

  lemma HarmlessComposes(rows: Rows, rows': Rows, rows'': Rows, ids: set<OrderId>)
    requires Harmless(rows, rows', ids) && Harmless(rows', rows'', ids)
    ensures Harmless(rows, rows'', ids)
  {
  }

  // ---------- the processor ----------

  /**
    `rejectOrder`: event first, then the row, then the message. Called with the attempt under way
    and the row just marked pending; afterwards there is no attempt.
   */
  method RejectOrder(store: OrderStore, order: Order, reason: string) returns (done: bool)
    requires store.Valid() && store.Now().attempt == Decided(order)
    modifies store
    ensures store.Valid() && store.Grows()
    ensures store.Now().attempt == Idle && store.Now().lost == old(store.Now().lost)
    ensures store.Now().placed == old(store.Now().placed) && store.Now().forgotten == old(store.Now().forgotten)
    ensures !done ==> Interrupted(old(store.history), store.history)
    ensures done ==> store.history == old(store.history) + [Reject(reason)]
    ensures done ==> && store.rows == old(store.rows)[order.orderId := RejectedRow(old(store.rows), order, reason)]
                     && store.events == old(store.events) + [RejectEvent(order)]
                     && store.published == old(store.published) + [RejectMessage(order, reason)]
    ensures store.rows == old(store.rows) ||
            store.rows == old(store.rows)[order.orderId := RejectedRow(old(store.rows), order, reason)]
    ensures store.rows != old(store.rows) ==> store.events == old(store.events) + [RejectEvent(order)]
    ensures done ==>
              var (row, n, m) := (store.rows[order.orderId], |old(store.events)|, |old(store.published)|);
              && row.status == Rejected && row.errorMsg == Some(reason)
              && row.intent == (if order.orderId in old(store.rows) then old(store.rows)[order.orderId].intent
                                else order.intent)
              && store.events[n] == Event(order.orderId, order.intent.userId, Rejected, None, order.intent.quantity)
              && store.published[m] == Message(order.orderId, order.intent.userId, Rejected, order.intent.quantity,
                   None, None, Some(reason))
    ensures store.published != old(store.published) ==>
              && store.rows == old(store.rows)[order.orderId := RejectedRow(old(store.rows), order, reason)]
              && store.events == old(store.events) + [RejectEvent(order)]
  {
    hide PendingRow, SubmittedRow;
    done := store.CreateEvent(RejectEvent(order));
    if done {
      done := store.Write(Reject(reason), order.orderId, RejectedRow(store.rows, order, reason));
    }
    if done {
      done := store.Publish(RejectMessage(order, reason));
    }
  }

  /** How often this command reached the exchange and was accepted there. */
  function Placements(decision: Decision, answer: Answer, order: Order): seq<OrderId> {
    if decision.Place? || (decision.Refuse? && decision.why == Exchange && answer.Failed? && answer.unheard)
    then [order.orderId] else []
  }

  /** The row each decision leaves. */
  lemma CarriedRow(decision: Decision, order: Order, rows: Rows, events: seq<Event>, published: seq<Message>,
                   rows': Rows, events': seq<Event>, published': seq<Message>)
    requires !decision.Skip? && Carried(decision, order, rows, events, published, rows', events', published')
    ensures order.orderId in rows'
    ensures decision.Refuse? ==>
              rows'[order.orderId].status == Rejected && rows'[order.orderId].errorMsg == Some(decision.reason)
    ensures decision.Place? ==>
              && rows'[order.orderId].binanceOrderId == Some(decision.exchangeId)
              && rows'[order.orderId].status == NormalizeOrderStatus(decision.reply.status)
  {
    hide NormalizeOrderStatus, OptionalText, Divide;
  }

  /** What stands in the way first decides, with its own text or the fallback. */
  lemma DecideMeans(check: Check, credential: Option<string>, answer: Answer)
    ensures var (decision, unchecked) := (Decide(None, check, credential, answer),
                check.NotConfigured? || check.Passed?);
            && (check.CheckFailed? ==>
                  decision == Refuse(FilterCheck, if check.message != "" then check.message
                                                  else "Exchange filter validation failed"))
            && (check.Violated? ==>
                  decision == Refuse(Filters, if check.errors != "" then check.errors
                                              else "Order violates Binance filters"))
            && (unchecked && credential.Some? ==>
                  decision == Refuse(Credential, if credential.value != "" then credential.value
                                                 else "Exchange credential not found"))
            && (unchecked && credential.None? && answer.Failed? ==>
                  decision == Refuse(Exchange, if answer.message != "" then answer.message
                                               else "Binance order failed"))
            && (unchecked && credential.None? && answer.Placed? ==>
                  decision == Place(answer.exchangeId, answer.reply))
  {
  }

  /**
    `processOrderSubmitCommand`. If no call fails, the decision is carried out in full; otherwise the
    command has thrown, and all that may have happened is harmless: no other row, no intent and no
    recorded exchange id is affected, and at most one placement is lost. Case by case: an order that
    has been submitted is left alone; otherwise the first of a failed check, a violated filter, a
    missing credential and a failing exchange rejects it with its own text or the fallback; and only
    if nothing stands in the way does the exchange's id go into the row.
   */
  method ProcessSubmit(store: OrderStore, order: Order, check: Check, credential: Option<string>, answer: Answer)
    returns (outcome: Outcome)
    requires store.Valid() && store.Now().attempt == Idle
    modifies store
    ensures store.Valid() && store.Now().attempt == Idle && store.Grows()
    ensures store.Now().forgotten == old(store.Now().forgotten)
    ensures outcome.Threw? ==> Interrupted(old(store.history), store.history)
    ensures var decision := Decide(RowAt(old(store.rows), order.orderId), check, credential, answer);
            !outcome.Threw? ==>
              && outcome == OutcomeOf(decision)
              && Carried(decision, order, old(store.rows), old(store.events), old(store.published),
                         store.rows, store.events, store.published)
              && store.Now().placed == old(store.Now().placed) + Placements(decision, answer, order)
              && store.Now().lost == old(store.Now().lost) +
                  if decision.Place? then [] else Placements(decision, answer, order)
    ensures !outcome.Threw? ==>
              var (id, row) := (order.orderId, RowAt(old(store.rows), order.orderId));
              var submitted := row.Some? &&
                (row.value.binanceOrderId.Some? || row.value.status in {Submitted, PartiallyFilled, Filled});
              var unchecked := check.NotConfigured? || check.Passed?;
              && (outcome == Skipped <==> submitted)
              && (submitted ==>
                    var stored := row.value;
                    var quantity := if stored.executedQty > 0.0 then Some(stored.executedQty)
                                    else if stored.intent.quantity.Some? then stored.intent.quantity
                                    else order.intent.quantity;
                    store.published == old(store.published) +
                      [Message(id, stored.intent.userId, stored.status, quantity, stored.avgFillPrice,
                               stored.binanceOrderId, None)])
              && (submitted ==> store.rows == old(store.rows) && store.Now().placed == old(store.Now().placed))
              && (!submitted ==> old(store.history) + [Start(order), MarkPending] <= store.history)
              && store.Now().lost == old(store.Now().lost) +
                   (if !submitted && unchecked && credential.None? && answer.Failed? && answer.unheard then [id]
                    else [])
              && (!submitted && check.CheckFailed? ==>
                    && outcome == Refused(FilterCheck) && store.Now().placed == old(store.Now().placed)
                    && id in store.rows && store.rows[id].status == Rejected
                    && store.rows[id].errorMsg ==
                         Some(if check.message != "" then check.message else "Exchange filter validation failed"))
              && (!submitted && check.Violated? ==>
                    && outcome == Refused(Filters) && store.Now().placed == old(store.Now().placed)
                    && id in store.rows && store.rows[id].status == Rejected
                    && store.rows[id].errorMsg ==
                         Some(if check.errors != "" then check.errors else "Order violates Binance filters"))
              && (!submitted && unchecked && credential.Some? ==>
                    && outcome == Refused(Credential) && store.Now().placed == old(store.Now().placed)
                    && id in store.rows && store.rows[id].status == Rejected
                    && store.rows[id].errorMsg ==
                         Some(if credential.value != "" then credential.value else "Exchange credential not found"))
              && (!submitted && unchecked && credential.None? && answer.Failed? ==>
                    && outcome == Refused(Exchange)
                    && store.Now().placed == old(store.Now().placed) + (if answer.unheard then [id] else [])
                    && id in store.rows && store.rows[id].status == Rejected
                    && store.rows[id].errorMsg ==
                         Some(if answer.message != "" then answer.message else "Binance order failed"))
              && (!submitted && unchecked && credential.None? && answer.Placed? ==>
                    && outcome == SubmitDone && store.Now().placed == old(store.Now().placed) + [id]
                    && id in store.rows && store.rows[id].binanceOrderId == Some(answer.exchangeId)
                    && store.rows[id].status == NormalizeOrderStatus(answer.reply.status))
    ensures Harmless(old(store.rows), store.rows, {order.orderId})
    ensures store.published != old(store.published) ==> Recorded(store.rows, order.orderId)
    ensures |store.Now().lost| <= |old(store.Now().lost)| + 1
  {
    hide Carried, Harmless, NormalizeOrderStatus;
    WritesNothing(store.rows, order.orderId);
    var existing := store.FindUnique(order.orderId);
    if existing.Err? {
      return Threw;
    }
    if AlreadySubmitted(existing.value) {
      SkipCarried(order, store.rows, store.events, store.published, answer);
      var done := store.Publish(SkipMessage(existing.value.value, order));
      return if done then Skipped else Threw;
    }
    ghost var (rows, events, published) := (store.rows, store.events, store.published);
    DecideMeans(check, credential, answer);
    SameDecision(RowAt(rows, order.orderId), check, credential, answer);
    hide Decide, Reason, SettleSteps, AlreadySubmitted;
    outcome := Submit(store, order, check, credential, answer);
    if !outcome.Threw? {
      CarriedRow(Decide(None, check, credential, answer), order, rows, events, published,
          store.rows, store.events, store.published);
    }
  }

  lemma SameDecision(row: Option<Row>, check: Check, credential: Option<string>, answer: Answer)
    ensures !AlreadySubmitted(row) ==>
              Decide(row, check, credential, answer) == Decide(None, check, credential, answer)
    ensures AlreadySubmitted(row) <==>
            row.Some? && (row.value.binanceOrderId.Some? || row.value.status in {Submitted, PartiallyFilled, Filled})
  {
    hide Reason;
  }

  lemma SkipCarried(order: Order, rows: Rows, events: seq<Event>, published: seq<Message>, answer: Answer)
    requires order.orderId in rows
    ensures Carried(Skip, order, rows, events, published, rows, events,
        published + [SkipMessage(rows[order.orderId], order)])
    ensures Placements(Skip, answer, order) == []
  {
  }

  /** The submit of an order that has not been submitted: mark it pending, check it, and place or reject it. */
  method Submit(store: OrderStore, order: Order, check: Check, credential: Option<string>, answer: Answer)
    returns (outcome: Outcome)
    requires store.Valid() && store.Now().attempt == Idle && !AlreadySubmitted(RowAt(store.rows, order.orderId))
    modifies store
    ensures store.Valid() && store.Now().attempt == Idle && store.Grows()
    ensures store.Now().forgotten == old(store.Now().forgotten)
    ensures outcome.Threw? ==> Interrupted(old(store.history), store.history)
    ensures var decision := Decide(None, check, credential, answer);
            !outcome.Threw? ==>
              && outcome == OutcomeOf(decision)
              && Carried(decision, order, old(store.rows), old(store.events), old(store.published),
                         store.rows, store.events, store.published)
              && store.Now().placed == old(store.Now().placed) + Placements(decision, answer, order)
              && store.Now().lost == old(store.Now().lost) +
                  if decision.Place? then [] else Placements(decision, answer, order)
    ensures !outcome.Threw? ==>
              store.history == old(store.history) + [Start(order), MarkPending] +
                SettleSteps(Decide(None, check, credential, answer), answer)
    ensures Harmless(old(store.rows), store.rows, {order.orderId})
    ensures store.published != old(store.published) ==> Recorded(store.rows, order.orderId)
    ensures |store.Now().lost| <= |old(store.Now().lost)| + 1
  {
    hide RejectedRow, PendingRow, SubmittedRow, RejectMessage, SubmitMessage, Reason, Harmless, RejectEvent,
        SubmitEvent;
    hide Run, Fresh, Base, Decide, Recorded, Carried, Placements;
    ghost var (rows, events, published) := (store.rows, store.events, store.published);
    WritesNothing(rows, order.orderId);
    SubmitRowsAreHarmless(rows, order);
    store.Note(Start(order));
    var done := store.Write(MarkPending, order.orderId, PendingRow(store.rows, order));
    if !done {
      return Threw;
    }
    ghost var pending := store.rows;
    outcome := Settle(store, order, check, credential, answer);
    HarmlessComposes(rows, pending, store.rows, {order.orderId});
    if !outcome.Threw? {
      CarriedOverPending(Decide(None, check, credential, answer), order, rows, events, published,
          store.rows, store.events, store.published);
    }
  }

  lemma CarriedOverPending(decision: Decision, order: Order, rows: Rows, events: seq<Event>, published: seq<Message>,
                           rows': Rows, events': seq<Event>, published': seq<Message>)
    requires !decision.Skip?
    requires Carried(decision, order, rows[order.orderId := PendingRow(rows, order)], events, published,
        rows', events', published')
    ensures Carried(decision, order, rows, events, published, rows', events', published')
  {
    hide RejectedRow, PendingRow, SubmittedRow;
    OverwriteTwice(rows, order);
  }

  /** The rest of it once the row is marked pending. */
  method Settle(store: OrderStore, order: Order, check: Check, credential: Option<string>, answer: Answer)
    returns (outcome: Outcome)
    requires store.Valid() && store.Now().attempt == Decided(order)
    modifies store
    ensures store.Valid() && store.Now().attempt == Idle && store.Grows()
    ensures store.Now().forgotten == old(store.Now().forgotten)
    ensures outcome.Threw? ==> Interrupted(old(store.history), store.history)
    ensures var decision := Decide(None, check, credential, answer);
            !outcome.Threw? ==>
              && outcome == OutcomeOf(decision) && !decision.Skip?
              && Carried(decision, order, old(store.rows), old(store.events), old(store.published),
                         store.rows, store.events, store.published)
              && store.Now().placed == old(store.Now().placed) + Placements(decision, answer, order)
              && store.Now().lost == old(store.Now().lost) +
                  (if decision.Place? then [] else Placements(decision, answer, order))
              && store.history == old(store.history) + SettleSteps(decision, answer)
    ensures Harmless(old(store.rows), store.rows, {order.orderId})
    ensures store.published != old(store.published) ==> Recorded(store.rows, order.orderId)
    ensures |store.Now().lost| <= |old(store.Now().lost)| + 1
  {
    hide RejectedRow, PendingRow, SubmittedRow, RejectMessage, SubmitMessage, Reason, Harmless, RejectEvent,
        SubmitEvent;
    hide Run, Fresh, Base, Recorded;
    WritesNothing(store.rows, order.orderId);
    SubmitRowsAreHarmless(store.rows, order);
    FinalRowsAreRecorded(store.rows, order);
    var refusal := Refusal(check, credential, answer);
    hide Decide;
    var done;
    if refusal.Some? {
      var (why, message) := refusal.value;
      if why == Exchange && answer.unheard {
        store.Note(AcceptUnheard);
      }
      done := RejectOrder(store, order, Reason(message, why));
      return if done then Refused(why) else Threw;
    }
    done := SaveOrder(store, order, answer.exchangeId, answer.reply);
    outcome := if done then SubmitDone else Threw;
  }

  /** The steps of the attempt after its pending mark. */
  function SettleSteps(decision: Decision, answer: Answer): seq<Step> {
    match decision
    case Place(exchangeId, reply) => [Accept, Save(exchangeId, reply)]
    case Refuse(why, reason) =>
      (if why == Exchange && answer.Failed? && answer.unheard then [AcceptUnheard] else []) + [Reject(reason)]
    case Skip => []
  }

  /** The first of the three answers that stands in the way, with its message. */
  method Refusal(check: Check, credential: Option<string>, answer: Answer) returns (refusal: Option<(Why, string)>)
    ensures refusal.Some? ==>
              Decide(None, check, credential, answer) ==
                  Refuse(refusal.value.0, Reason(refusal.value.1, refusal.value.0))
    ensures refusal ==
            if check.CheckFailed? then Some((FilterCheck, check.message))
            else if check.Violated? then Some((Filters, check.errors))
            else if credential.Some? then Some((Credential, credential.value))
            else if answer.Failed? then Some((Exchange, answer.message))
            else None
    ensures refusal.None? ==>
        answer.Placed? && Decide(None, check, credential, answer) == Place(answer.exchangeId, answer.reply)
  {
    hide Reason;
    if check.CheckFailed? {
      return Some((FilterCheck, check.message));
    }
    if check.Violated? {
      return Some((Filters, check.errors));
    }
    if credential.Some? {
      return Some((Credential, credential.value));
    }
    refusal := if answer.Failed? then Some((Exchange, answer.message)) else None;
  }

  /** The event and the message of an accepted order say what its row says. */
  lemma SavedMeans(rows: Rows, order: Order, exchangeId: int, reply: Reply)
    ensures var row := SubmittedRow(rows, order, exchangeId, reply);
            var quantity := if reply.executedQty.Some? then reply.executedQty else order.intent.quantity;
            && row.binanceOrderId == Some(exchangeId) && row.status == NormalizeOrderStatus(reply.status)
            && row.executedQty == (if reply.executedQty.Some? then reply.executedQty.value else 0.0)
            && row.cummulativeQuoteQty.Some?
            && row.cummulativeQuoteQty.value ==
                 (if reply.cummulativeQuoteQty.Some? then reply.cummulativeQuoteQty.value else 0.0)
            && row.avgFillPrice == (if row.executedQty > 0.0 && row.cummulativeQuoteQty.value > 0.0
                                    then Some(row.cummulativeQuoteQty.value / row.executedQty) else None)
            && row.lastTradeQty == reply.lastFillQty && row.lastTradePrice == reply.lastFillPrice
            && SubmitEvent(order, reply) ==
                 Event(order.orderId, order.intent.userId, row.status, row.avgFillPrice, quantity)
            && SubmitMessage(order, exchangeId, reply) ==
                 Message(order.orderId, order.intent.userId, row.status, quantity, row.avgFillPrice, Some(exchangeId),
                     None)
  {
    SubmittedRowMeans(rows, order, exchangeId, reply);
    hide NormalizeOrderStatus;
  }

  /** The exchange has accepted: save its id, then record and publish the event. */
  method SaveOrder(store: OrderStore, order: Order, exchangeId: int, reply: Reply) returns (done: bool)
    requires store.Valid() && store.Now().attempt == Decided(order)
    modifies store
    ensures store.Valid() && store.Now().attempt == Idle && store.Grows()
    ensures store.Now().forgotten == old(store.Now().forgotten)
    ensures store.Now().placed == old(store.Now().placed) + [order.orderId]
    ensures done ==> store.Now().lost == old(store.Now().lost)
    ensures done ==> store.history == old(store.history) + [Accept, Save(exchangeId, reply)]
    ensures !done ==> Interrupted(old(store.history), store.history)
    ensures |store.Now().lost| <= |old(store.Now().lost)| + 1
    ensures var row := SubmittedRow(old(store.rows), order, exchangeId, reply);
            done ==> && store.rows == old(store.rows)[order.orderId := row]
                     && store.events == old(store.events) + [SubmitEvent(order, reply)]
                     && store.published == old(store.published) + [SubmitMessage(order, exchangeId, reply)]
    ensures done ==>
              var (row, n, m) := (store.rows[order.orderId], |old(store.events)|, |old(store.published)|);
              var quantity := if reply.executedQty.Some? then reply.executedQty else order.intent.quantity;
              && row.binanceOrderId == Some(exchangeId) && row.status == NormalizeOrderStatus(reply.status)
              && row.executedQty == (if reply.executedQty.Some? then reply.executedQty.value else 0.0)
              && row.cummulativeQuoteQty.Some?
              && row.cummulativeQuoteQty.value ==
                   (if reply.cummulativeQuoteQty.Some? then reply.cummulativeQuoteQty.value else 0.0)
              && row.avgFillPrice == (if row.executedQty > 0.0 && row.cummulativeQuoteQty.value > 0.0
                                      then Some(row.cummulativeQuoteQty.value / row.executedQty) else None)
              && row.lastTradeQty == reply.lastFillQty && row.lastTradePrice == reply.lastFillPrice
              && store.events[n] == Event(order.orderId, order.intent.userId, row.status, row.avgFillPrice, quantity)
              && store.published[m] == Message(order.orderId, order.intent.userId, row.status, quantity,
                   row.avgFillPrice, Some(exchangeId), None)
    ensures store.rows == old(store.rows) ||
            store.rows == old(store.rows)[order.orderId := SubmittedRow(old(store.rows), order, exchangeId, reply)]
    ensures store.events != old(store.events) ==>
              store.rows == old(store.rows)[order.orderId := SubmittedRow(old(store.rows), order, exchangeId, reply)]
    ensures store.published != old(store.published) ==> store.events == old(store.events) + [SubmitEvent(order, reply)]
  {
    hide SubmittedRow, PendingRow, RejectedRow, SubmitEvent, SubmitMessage, Run, Fresh;
    SavedMeans(store.rows, order, exchangeId, reply);
    store.Note(Accept);
    done := store.Write(Save(exchangeId, reply), order.orderId, SubmittedRow(store.rows, order, exchangeId, reply));
    if done {
      done := store.CreateEvent(SubmitEvent(order, reply));
    }
    if done {
      done := store.Publish(SubmitMessage(order, exchangeId, reply));
    }
  }

  /** A row marked pending and then written again is as if it had been written once. */
  lemma OverwriteTwice(rows: Rows, order: Order)
    ensures var pending := rows[order.orderId := PendingRow(rows, order)];
            && (forall reason :: pending[order.orderId := RejectedRow(pending, order, reason)] ==
                                 rows[order.orderId := RejectedRow(rows, order, reason)])
            && (forall exchangeId, reply :: pending[order.orderId := SubmittedRow(pending, order, exchangeId, reply)] ==
                                            rows[order.orderId := SubmittedRow(rows, order, exchangeId, reply)])
  {
    hide NormalizeOrderStatus, OptionalText, Divide;
  }

  function NoReply(): Reply {
    Reply(None, None, None, None, None, None, None, None)
  }

  lemma FinalRowsAreRecorded(rows: Rows, order: Order)
    ensures forall reason :: Recorded(rows[order.orderId := RejectedRow(rows, order, reason)], order.orderId)
    ensures forall exchangeId, reply ::
              Recorded(rows[order.orderId := SubmittedRow(rows, order, exchangeId, reply)], order.orderId)
  {
    hide NormalizeOrderStatus, OptionalText, Divide, Base;
  }

  lemma SubmitRowsAreHarmless(rows: Rows, order: Order)
    ensures Harmless(rows, rows[order.orderId := PendingRow(rows, order)], {order.orderId})
    ensures forall reason :: Harmless(rows, rows[order.orderId := RejectedRow(rows, order, reason)], {order.orderId})
    ensures forall exchangeId, reply ::
              Harmless(rows, rows[order.orderId := SubmittedRow(rows, order, exchangeId, reply)], {order.orderId})
  {
    hide RejectedRow, PendingRow, SubmittedRow, NormalizeOrderStatus, Divide, KeepsIntents, KeepsExchangeIds,
        OnlyTouches;
    SubmitWrites(rows, order, 0, NoReply(), "");
    OneRowWritten(rows, order.orderId, PendingRow(rows, order));
    forall reason
      ensures Harmless(rows, rows[order.orderId := RejectedRow(rows, order, reason)], {order.orderId})
    {
      SubmitWrites(rows, order, 0, NoReply(), reason);
      OneRowWritten(rows, order.orderId, RejectedRow(rows, order, reason));
    }
    forall exchangeId, reply
      ensures Harmless(rows, rows[order.orderId := SubmittedRow(rows, order, exchangeId, reply)], {order.orderId})
    {
      SubmitWrites(rows, order, exchangeId, reply, "");
      OneRowWritten(rows, order.orderId, SubmittedRow(rows, order, exchangeId, reply));
    }
  }
}
