/**
  The cancel endpoints of the gateway: an order's row and event say that its cancellation was
  requested before the command is appended to the stream. Any call may fail; after a failed append
  the failure is recorded as far as the database lets it.
 */
module CancelEndpoints {
  import opened Wrappers
  import opened Text
  import opened StreamContracts
  import opened Orders
  import opened Placement
  import opened Store
  import opened SubmitProcessor
  import opened CancelProcessor
  import opened CancelAllProcessor
  import opened Commands
  import opened OrderDraft

  datatype Response =
    | Requested(affected: nat) | InFlight(status: Status) | BadRequest | NotFound | NotCancelable
    | AppendFailed | Broken

  /** The command stream as a producer sees it. */
  class CommandStream {
    var entries: seq<Fields>

    /** XADD; without an answer the entry may still be there. */
    method Append(entry: Fields, took: bool, heard: bool) returns (done: bool)
      modifies this
      ensures entries == if took then old(entries) + [entry] else old(entries)
      ensures done <==> took && heard
    {
      if took {
        entries := entries + [entry];
      }
      done := took && heard;
    }
  }

  function CancelFields(commandId: string, orderId: Option<string>, userId: string, symbol: string,
      requestId: Option<string>,
                        createdAt: string): Fields {
    var fields := map[CommandId := commandId, UserId := userId, Symbol := Token(symbol), Source := "backend",
        CreatedAt := createdAt];
    With(With(fields, OrderId, orderId), RequestId, requestId)
  }

  /** `createOrderCancelDraftFromRequest` and its sibling for all orders of a symbol. */
  function CancelDraft<M>(kind: Kind, env: Env<M>, commandId: string, orderId: Option<string>, userId: string,
      symbol: string,
                          requestId: Option<string>): Result<Fields> {
    if Token(symbol) == "" then Err(Missing(Symbol))
    else Build(kind, env, CancelFields(commandId, orderId, userId, symbol, requestId, env.now),
        Some(JsonObject(env.emptyObject)))
  }

  lemma CancelTexts(commandId: string, orderId: string, userId: string, symbol: string, requestId: Option<string>,
      createdAt: string)
    ensures var fields := CancelFields(commandId, Some(orderId), userId, symbol, requestId, createdAt);
            TextAt(fields, OrderId) == orderId && TextAt(fields, UserId) == userId
                && TextAt(fields, Symbol) == Token(symbol)
  {
    hide Token;
  }

  /** What the entry of a cancel says to its consumer: which order, whose, and in which symbol. */
  lemma {:induction false} CancelEntryNamesOrder<M(!new)>(
    env: Env<M>, later: string, commandId: string, orderId: string, userId: string, symbol: string,
        requestId: Option<string>)
    requires Sound(env) && CancelDraft(Kind.Cancel, env, commandId, Some(orderId), userId, symbol, requestId).Ok?
    ensures var entry := CancelDraft(Kind.Cancel, env, commandId, Some(orderId), userId, symbol, requestId).value;
            var c := ParseOrderCommand(env.(now := later), entry);
            && c.Ok? && KindOf(c.value.fields) == Kind.Cancel
            && TextAt(c.value.fields, OrderId) == Trim(orderId) && TextAt(c.value.fields, UserId) == Trim(userId)
            && TextAt(c.value.fields, Symbol) == Token(symbol)
  {
    hide Build, Normalize, ParseOrderCommand, Sound, MessageTypeOf, OmitEmpty, Trim, Token, SubmitRules, FieldsOf;
    hide CancelFields, TextAt, ContractValid;
    CancelTexts(commandId, orderId, userId, symbol, requestId, env.now);
    var (input, metadata) :=
        (CancelFields(commandId, Some(orderId), userId, symbol, requestId, env.now), Some(JsonObject(env.emptyObject)));
    ParseInvertsBuild(Kind.Cancel, env, later, input, metadata);
    BuiltType(env, input, metadata);
    MessageTypesDiffer();
    CancelFieldsAreListed();
    TokenIsProjection(symbol);
    BuiltText(Kind.Cancel, env, input, metadata, OrderId);
    BuiltText(Kind.Cancel, env, input, metadata, UserId);
    BuiltText(Kind.Cancel, env, input, metadata, Symbol);
  }

  lemma {:induction false} BuiltType<M(!new)>(env: Env<M>, input: Fields, metadata: Option<Json<M>>)
    requires Build(Kind.Cancel, env, input, metadata).Ok?
    ensures TextAt(WithoutEmpty(Normalize(Kind.Cancel, env, input, metadata)).fields, MessageType) ==
        MessageTypeOf(Kind.Cancel)
  {
    hide Build, Normalize, MessageTypeOf, OmitEmpty, Trim, TextAt, SubmitRules;
    BuildSucceeds(Kind.Cancel, env, input, metadata);
    OmitEmptyKeepsText(Normalize(Kind.Cancel, env, input, metadata).fields, MessageType);
  }

  lemma CancelFieldsAreListed()
    ensures {OrderId, UserId, Symbol} <= FieldsOf(Kind.Cancel)
  {
  }

  // ---------- rows and events ----------

  function WithCancelStatus(row: Row, failed: bool): Row {
    row.(status := if failed then CancelAppendFailed else CancelRequested,
         errorMsg := if failed then Some("Redis stream append failed") else None)
  }

  /** `createOrderLifecycleEvent`: the executed quantity counts even when it is zero. */
  function LifecycleEvent(id: OrderId, row: Row, failed: bool): Event {
    Event(id, row.intent.userId, if failed then CancelAppendFailed else CancelRequested, PriceOf(row),
        Some(row.executedQty))
  }

  predicate CancelInFlight(status: Status) {
    status == CancelRequested || status == CancelPending
  }

  lemma LifecycleFits(id: OrderId, row: Row, current: Row, failed: bool)
    ensures LifecycleEvent(id, row, failed).orderId == id
    ensures LifecycleEvent(id, row, failed).status == WithCancelStatus(current, failed).status
    ensures WithCancelStatus(current, failed).intent == current.intent
    ensures WithCancelStatus(current, failed).binanceOrderId == current.binanceOrderId
  {
  }

  /** Marking the failure overrides that the cancellation was requested. */
  lemma FailedAfterRequested(row: Row)
    ensures WithCancelStatus(WithCancelStatus(row, false), true) == WithCancelStatus(row, true)
    ensures WithCancelStatus(WithCancelStatus(row, true), true) == WithCancelStatus(row, true)
  {
  }

  lemma FailedShows(row: Row)
    ensures WithCancelStatus(row, true) ==
            row.(status := CancelAppendFailed, errorMsg := Some("Redis stream append failed"))
  {
  }

  /** Row, then event, of a requested cancellation. */
  method RequestCancel(store: OrderStore, id: OrderId, existing: Row) returns (done: bool)
    requires store.Valid() && store.Now().attempt.Idle? && id in store.rows
    modifies store`rows, store`events, store`history
    ensures store.Valid() && store.Grows() && OnlyRows(old(store.Now()), store.Now())
    ensures !done ==> Interrupted(old(store.history), store.history)
    ensures done ==> && store.rows == old(store.rows)[id := WithCancelStatus(old(store.rows)[id], false)]
                     && store.events == old(store.events) + [LifecycleEvent(id, existing, false)]
                     && store.rows[id] == old(store.rows)[id].(status := CancelRequested, errorMsg := None)
                     && store.events[|old(store.events)|] == Event(id, existing.intent.userId, CancelRequested,
                          if existing.avgFillPrice.Some? then existing.avgFillPrice else existing.intent.price,
                          Some(existing.executedQty))
    ensures SubmitProcessor.Harmless(old(store.rows), store.rows, {id})
  {
    hide SubmitProcessor.Harmless, Run, Fresh;
    LifecycleFits(id, existing, store.rows[id], false);
    done := Update(store, id, WithCancelStatus(store.rows[id], false));
    if done {
      done := store.CreateEvent(LifecycleEvent(id, existing, false));
    }
  }

  /** Recording a failed append; errors of either call are swallowed. */
  method RecordAppendFailure(store: OrderStore, id: OrderId, existing: Row)
    requires store.Valid() && store.Now().attempt.Idle? && id in store.rows
    modifies store`rows, store`events, store`history
    ensures store.Valid() && store.Grows() && OnlyRows(old(store.Now()), store.Now())
    ensures !Interrupted(old(store.history), store.history) ==>
              && store.rows == old(store.rows)[id := WithCancelStatus(old(store.rows)[id], true)]
              && store.events == old(store.events) + [LifecycleEvent(id, existing, true)]
    ensures store.rows == old(store.rows)
        || store.rows == old(store.rows)[id := WithCancelStatus(old(store.rows)[id], true)]
    ensures store.events == old(store.events)
        || store.events == old(store.events) + [LifecycleEvent(id, existing, true)]
    ensures SubmitProcessor.Harmless(old(store.rows), store.rows, {id})
  {
    hide SubmitProcessor.Harmless, Run, Fresh, LifecycleEvent, WithCancelStatus;
    LifecycleFits(id, existing, store.rows[id], true);
    var updated := Update(store, id, WithCancelStatus(store.rows[id], true));
    var created := store.CreateEvent(LifecycleEvent(id, existing, true));
  }

  // ---------- DELETE /orders/:orderId ----------

  /** How the endpoint answers before it writes anything, if it does. */
  function CancelRefusal(id: OrderId, row: Option<Row>, userId: string): Option<Response> {
    if id == "" then Some(BadRequest)
    else if row.None? || row.value.intent.userId != userId then Some(NotFound)
    else if CancelInFlight(row.value.status) then Some(InFlight(row.value.status))
    else if !CancelOpen(row.value.status) then Some(NotCancelable)
    else None
  }

  /** Which requests are refused, case by case. */
  lemma RefusalMeans(id: OrderId, row: Option<Row>, userId: string)
    ensures var refusal := CancelRefusal(id, row, userId);
            && (id == "" ==> refusal == Some(BadRequest))
            && (id != "" && (row.None? || row.value.intent.userId != userId) ==> refusal == Some(NotFound))
            && (id != "" && row.Some? && row.value.intent.userId == userId ==>
                  var status := row.value.status;
                  if status in {CancelRequested, CancelPending} then refusal == Some(InFlight(status))
                  else if status !in {Received, Pending, Submitted, PartiallyFilled, CancelRejected,
                            CancelAppendFailed} then refusal == Some(NotCancelable)
                  else refusal == None)
  {
  }

  /**
    A cancel command is appended only for the user's own open order, after its row and its last event
    say that the cancellation was requested; refused requests change nothing.
   */
  method CancelOrder<M(!new)>(store: OrderStore, stream: CommandStream, env: Env<M>, path: string, userId: string,
                              commandId: string, requestId: Option<string>, took: bool, heard: bool)
    returns (response: Response)
    requires store.Valid() && store.Now().attempt.Idle?
    modifies store, stream
    ensures store.Valid() && store.Grows() && OnlyRows(old(store.Now()), store.Now())
    ensures SubmitProcessor.Harmless(old(store.rows), store.rows, {Trim(path)})
    ensures var (id, row) := (Trim(path), RowAt(old(store.rows), Trim(path)));
            CancelRefusal(id, row, userId).Some? ==>
              && (response == CancelRefusal(id, row, userId).value || response == Broken)
              && store.rows == old(store.rows) && store.events == old(store.events)
                  && stream.entries == old(stream.entries)
    ensures response.Requested? ==>
              var (id, row) := (Trim(path), RowAt(old(store.rows), Trim(path)));
              && row.Some? && CancelRefusal(id, row, userId).None?
              && store.rows == old(store.rows)[id := WithCancelStatus(row.value, false)]
              && EventMatchesRow(store.rows, store.events, id)
              && var draft := CancelDraft(Kind.Cancel, env, commandId, Some(id), userId, row.value.intent.symbol,
                  requestId);
                 draft.Ok? && stream.entries == old(stream.entries) + [draft.value]
    ensures stream.entries != old(stream.entries) ==>
              var (id, row) := (Trim(path), RowAt(old(store.rows), Trim(path)));
              && row.Some? && CancelRefusal(id, row, userId).None? && (response.Requested? || response.AppendFailed?)
              && old(store.events) + [LifecycleEvent(id, row.value, false)] <= store.events
    ensures response == Broken ==> Interrupted(old(store.history), store.history)
    ensures var (id, row) := (Trim(path), RowAt(old(store.rows), Trim(path)));
            response != Broken ==>
              && (id == "" ==> response == BadRequest)
              && (id != "" && (row.None? || row.value.intent.userId != userId) ==> response == NotFound)
              && (id != "" && row.Some? && row.value.intent.userId == userId ==>
                    var status := row.value.status;
                    var draft := CancelDraft(Kind.Cancel, env, commandId, Some(id), userId, row.value.intent.symbol,
                        requestId);
                    if status in {CancelRequested, CancelPending} then response == InFlight(status)
                    else if status !in {Received, Pending, Submitted, PartiallyFilled, CancelRejected,
                              CancelAppendFailed} then response == NotCancelable
                    else if draft.Err? then response == BadRequest
                    else if took && heard then response == Requested(1)
                    else
                      && response == AppendFailed
                      && (!Interrupted(old(store.history), store.history) ==>
                            && id in store.rows
                            && store.rows[id] == row.value.(status := CancelAppendFailed,
                                 errorMsg := Some("Redis stream append failed"))))
    ensures response.AppendFailed? ==>
              var (id, row) := (Trim(path), RowAt(old(store.rows), Trim(path)));
              && row.Some? && CancelRefusal(id, row, userId).None?
              && (store.rows == old(store.rows)[id := WithCancelStatus(row.value, false)] ||
                  store.rows == old(store.rows)[id := WithCancelStatus(row.value, true)])
              && var requested := old(store.events) + [LifecycleEvent(id, row.value, false)];
                 store.events == requested || store.events == requested + [LifecycleEvent(id, row.value, true)]
  {
    hide SubmitProcessor.Harmless, Run, Fresh, LifecycleEvent, WithCancelStatus, CancelDraft, LastEvent, Trim, Terminal;
    var id := Trim(path);
    WritesNothing(store.rows, id);
    ghost var before := store.rows;
    RefusalMeans(id, RowAt(before, id), userId);
    hide CancelRefusal;
    if id == "" {
      return BadRequest;
    }
    var found := store.FindUnique(id);
    if found.Err? {
      return Broken;
    }
    var refusal := CancelRefusal(id, found.value, userId);
    if refusal.Some? {
      return refusal.value;
    }
    var existing := found.value.value;
    var draft := CancelDraft(Kind.Cancel, env, commandId, Some(id), userId, existing.intent.symbol, requestId);
    if draft.Err? {
      return BadRequest;
    }
    hide CancelOpen, CancelInFlight, EventMatchesRow;
    response := RequestAndAppend(store, stream, id, existing, draft.value, took, heard);
  }

  /** The rest of it for the user's own open order. */
  method RequestAndAppend(store: OrderStore, stream: CommandStream, id: OrderId, existing: Row, entry: Fields,
                          took: bool, heard: bool)
    returns (response: Response)
    requires store.Valid() && store.Now().attempt.Idle? && RowAt(store.rows, id) == Some(existing)
    modifies store, stream
    ensures store.Valid() && store.Grows() && OnlyRows(old(store.Now()), store.Now())
    ensures SubmitProcessor.Harmless(old(store.rows), store.rows, {id})
    ensures response == Broken ==> Interrupted(old(store.history), store.history)
    ensures response != Broken ==> response == if took && heard then Requested(1) else AppendFailed
    ensures response.Requested? ==>
              && store.rows == old(store.rows)[id := WithCancelStatus(existing, false)]
              && EventMatchesRow(store.rows, store.events, id) && stream.entries == old(stream.entries) + [entry]
    ensures stream.entries != old(stream.entries) ==>
              response != Broken && old(store.events) + [LifecycleEvent(id, existing, false)] <= store.events
    ensures response.AppendFailed? ==>
              && (store.rows == old(store.rows)[id := WithCancelStatus(existing, false)] ||
                  store.rows == old(store.rows)[id := WithCancelStatus(existing, true)])
              && var requested := old(store.events) + [LifecycleEvent(id, existing, false)];
                 store.events == requested || store.events == requested + [LifecycleEvent(id, existing, true)]
    ensures response.AppendFailed? && !Interrupted(old(store.history), store.history) ==>
              && id in store.rows
              && store.rows[id] ==
                   existing.(status := CancelAppendFailed, errorMsg := Some("Redis stream append failed"))
  {
    hide SubmitProcessor.Harmless, Run, Fresh, LifecycleEvent, WithCancelStatus, LastEvent, Terminal;
    ghost var (before, start) := (store.rows, store.history);
    LifecycleFits(id, existing, existing, false);
    LastEventOfAppend(store.events, LifecycleEvent(id, existing, false), id);
    var done := RequestCancel(store, id, existing);
    if !done {
      return Broken;
    }
    ghost var (requested, history) := (store.rows, store.history);
    done := stream.Append(entry, took, heard);
    if done {
      return Requested(1);
    }
    RecordAppendFailure(store, id, existing);
    StillInterrupted(start, history, store.history);
    FailedAfterRequested(existing);
    FailedShows(existing);
    HarmlessComposes(before, requested, store.rows, {id});
    response := AppendFailed;
  }

  // ---------- DELETE /orders/open ----------

  function RequestedRows(found: seq<Found>): (state: seq<Row>)
    ensures |state| == |found|
  {
    seq(|found|, i requires 0 <= i < |found| => WithCancelStatus(found[i].row, false))
  }

  /** Every order read is marked and has its event; all other rows are as before. */
  method RequestAll(store: OrderStore, found: seq<Found>, ghost before: Rows) returns (done: bool)
    requires store.Valid() && store.Now().attempt.Idle? && DistinctOrders(found)
    requires store.rows == before && Tracks(before, store.rows, store.events, found, Read(found), 0)
    modifies store`rows, store`events, store`history
    ensures store.Valid() && store.Grows() && OnlyRows(old(store.Now()), store.Now())
    ensures !done ==> Interrupted(old(store.history), store.history)
    ensures SubmitProcessor.Harmless(before, store.rows, Ids(found))
    ensures done ==> Tracks(before, store.rows, store.events, found, RequestedRows(found), |found|)
  {
    hide SubmitProcessor.Harmless, Tracks, LifecycleEvent, WithCancelStatus, Run, Fresh, DistinctOrders, Ids;
    NothingWritten(before, Ids(found));
    ghost var (target, state) := (RequestedRows(found), Read(found));
    for k := 0 to |found|
      invariant store.Valid() && store.Grows() && OnlyRows(old(store.Now()), store.Now())
      invariant SubmitProcessor.Harmless(before, store.rows, Ids(found))
      invariant |state| == |found| && state == target[..k] + Read(found)[k..]
      invariant Tracks(before, store.rows, store.events, found, state, k)
    {
      ghost var (rows, events) := (store.rows, store.events);
      TracksRow(before, rows, events, found, state, k, k);
      done := RequestCancel(store, found[k].orderId, found[k].row);
      HarmlessWidens(before, rows, store.rows, found, k);
      if !done {
        return;
      }
      LifecycleFits(found[k].orderId, found[k].row, found[k].row, false);
      Advance(target, Read(found), k, target[k]);
      TrackOne(before, rows, events, found, state, k, k, target[k],
          LifecycleEvent(found[k].orderId, found[k].row, false));
      state := state[k := target[k]];
    }
    assert state == target;
    done := true;
  }

  /**
    What an accepted request to cancel all leaves: its orders requested, each with its event, and
    nothing else changed.
   */
  ghost predicate AllRequested(found: seq<Found>, before: Rows, rows: Rows, events: seq<Event>) {
    && (forall id :: !IsFound(found, id) ==> RowAt(rows, id) == RowAt(before, id))
    && (forall k :: 0 <= k < |found| ==>
          && RowAt(rows, found[k].orderId) == Some(WithCancelStatus(found[k].row, false))
          && EventMatchesRow(rows, events, found[k].orderId))
  }

  lemma TrackedMeansRequested(found: seq<Found>, before: Rows, rows: Rows, events: seq<Event>)
    requires Tracks(before, rows, events, found, RequestedRows(found), |found|)
    ensures AllRequested(found, before, rows, events)
    ensures forall i :: 0 <= i < |found| ==> found[i].orderId in rows
  {
    hide EventMatchesRow, WithCancelStatus;
  }

  /**
    What a failed append leaves: each of the orders requested or marked as failed, in its row and in
    its last event, and nothing else changed.
   */
  ghost predicate AllRequestedOrFailed(found: seq<Found>, before: Rows, rows: Rows, events: seq<Event>) {
    && (forall id :: !IsFound(found, id) ==> RowAt(rows, id) == RowAt(before, id))
    && (forall k :: 0 <= k < |found| ==>
          || RowAt(rows, found[k].orderId) == Some(WithCancelStatus(found[k].row, false))
          || RowAt(rows, found[k].orderId) == Some(WithCancelStatus(found[k].row, true)))
    && (forall k :: 0 <= k < |found| ==> LastSays(events, found[k].orderId))
  }

  /** The last event of the order is about its cancellation. */
  predicate LastSays(events: seq<Event>, id: OrderId) {
    LastEvent(events, id).Some? && LastEvent(events, id).value.status in {CancelRequested, CancelAppendFailed}
  }

  lemma RequestedIsRequestedOrFailed(found: seq<Found>, before: Rows, rows: Rows, events: seq<Event>)
    requires AllRequested(found, before, rows, events)
    ensures AllRequestedOrFailed(found, before, rows, events)
  {
  }

  lemma {:induction false} FailureRecorded(found: seq<Found>, before: Rows, rows: Rows, events: seq<Event>, k: nat,
      rows': Rows, events': seq<Event>)
    requires AllRequestedOrFailed(found, before, rows, events) && DistinctOrders(found) && k < |found|
    requires var id := found[k].orderId;
             id in rows && (rows' == rows || rows' == rows[id := WithCancelStatus(rows[id], true)])
    requires events' == events || events' == events + [LifecycleEvent(found[k].orderId, found[k].row, true)]
    ensures AllRequestedOrFailed(found, before, rows', events')
  {
    var id := found[k].orderId;
    FailedAfterRequested(found[k].row);
    assert IsFound(found, id);
    forall i | 0 <= i < |found|
      ensures LastSays(events', found[i].orderId)
    {
      LastEventOfAppend(events, LifecycleEvent(id, found[k].row, true), found[i].orderId);
    }
    hide LastSays, WithCancelStatus, IsFound;
  }

  /** The first n orders read are marked as failed. */
  ghost predicate AllFailed(found: seq<Found>, rows: Rows, n: nat) {
    forall k :: 0 <= k < n && k < |found| ==>
      && found[k].orderId in rows && rows[found[k].orderId].status == CancelAppendFailed
      && rows[found[k].orderId].errorMsg == Some("Redis stream append failed")
  }

  lemma NoneFailed(found: seq<Found>, rows: Rows)
    ensures AllFailed(found, rows, 0)
  {
  }

  lemma OneMoreFailed(found: seq<Found>, before: Rows, rows: Rows, events: seq<Event>, k: nat, rows': Rows)
    requires DistinctOrders(found) && k < |found|
    requires AllRequestedOrFailed(found, before, rows, events)
    ensures found[k].orderId in rows
    ensures var id := found[k].orderId;
            AllFailed(found, rows, k) && rows' == rows[id := WithCancelStatus(rows[id], true)] ==>
              AllFailed(found, rows', k + 1)
  {
    hide LastSays;
  }

  /** The loop after a failed append; whatever it manages to record, no other row is touched. */
  method RecordAllFailures(store: OrderStore, found: seq<Found>, ghost before: Rows)
    requires store.Valid() && store.Now().attempt.Idle? && DistinctOrders(found)
    requires forall i :: 0 <= i < |found| ==> found[i].orderId in store.rows
    requires SubmitProcessor.Harmless(before, store.rows, Ids(found))
    requires AllRequestedOrFailed(found, before, store.rows, store.events)
    modifies store`rows, store`events, store`history
    ensures store.Valid() && store.Grows() && OnlyRows(old(store.Now()), store.Now())
    ensures SubmitProcessor.Harmless(before, store.rows, Ids(found))
    ensures AllRequestedOrFailed(found, before, store.rows, store.events)
    ensures !Interrupted(old(store.history), store.history) ==> AllFailed(found, store.rows, |found|)
  {
    hide SubmitProcessor.Harmless, LifecycleEvent, WithCancelStatus, Run, Fresh, Ids, AllRequestedOrFailed,
        DistinctOrders, AllFailed, Interrupted;
    NoneFailed(found, store.rows);
    for k := 0 to |found|
      invariant store.Valid() && store.Grows() && OnlyRows(old(store.Now()), store.Now())
      invariant SubmitProcessor.Harmless(before, store.rows, Ids(found))
      invariant forall i :: 0 <= i < |found| ==> found[i].orderId in store.rows
      invariant AllRequestedOrFailed(found, before, store.rows, store.events)
      invariant !Interrupted(old(store.history), store.history) ==> AllFailed(found, store.rows, k)
    {
      ghost var (rows, events, history) := (store.rows, store.events, store.history);
      RecordAppendFailure(store, found[k].orderId, found[k].row);
      HarmlessWidens(before, rows, store.rows, found, k);
      FailureRecorded(found, before, rows, events, k, store.rows, store.events);
      OneMoreFailed(found, before, rows, events, k, store.rows);
      StillInterrupted(old(store.history), history, store.history);
    }
  }

  /**
    One command is appended for all of the user's open orders of the symbol, after each of their rows
    and last events says that its cancellation was requested; no other row is written, come what may.
   */
  method CancelOpenOrders<M(!new)>(store: OrderStore, stream: CommandStream, env: Env<M>, userId: string,
      symbol: string,
                                   commandId: string, requestId: Option<string>, took: bool, heard: bool)
    returns (response: Response, ghost found: seq<Found>)
    requires store.Valid() && store.Now().attempt.Idle?
    modifies store, stream
    ensures store.Valid() && store.Grows() && OnlyRows(old(store.Now()), store.Now())
    ensures SubmitProcessor.Harmless(old(store.rows), store.rows, Ids(found))
    ensures response == Broken ==> Interrupted(old(store.history), store.history)
    ensures var draft := CancelDraft(CancelAll, env, commandId, None, userId, symbol, requestId);
            response != Broken ==>
              if draft.Err? then response == BadRequest
              else if took && heard then response == Requested(|found|)
              else
                && response == AppendFailed
                && (!Interrupted(old(store.history), store.history) ==> AllFailed(found, store.rows, |found|))
    ensures response.BadRequest? ==> store.rows == old(store.rows) && stream.entries == old(stream.entries)
    ensures response.Requested? || response.AppendFailed? ==> IsQuery(found, old(store.rows), userId, Token(symbol))
    ensures response.Requested? ==>
              && response.affected == |found|
              && AllRequested(found, old(store.rows), store.rows, store.events)
              && var draft := CancelDraft(CancelAll, env, commandId, None, userId, symbol, requestId);
                 draft.Ok? && stream.entries == old(stream.entries) + [draft.value]
    ensures response.AppendFailed? ==> AllRequestedOrFailed(found, old(store.rows), store.rows, store.events)
    ensures stream.entries != old(stream.entries) ==> response.Requested? || response.AppendFailed?
  {
    hide AllRequestedOrFailed, DistinctOrders;
    hide SubmitProcessor.Harmless, Tracks, Run, Fresh, Ids, IsQuery, AllRequested, CancelDraft, Token;
    ghost var before := store.rows;
    found := [];
    NothingWritten(before, Ids([]));
    var draft := CancelDraft(CancelAll, env, commandId, None, userId, symbol, requestId);
    if draft.Err? {
      return BadRequest, [];
    }
    var query := FindLocalOpenOrders(store, userId, Token(symbol));
    if query.Err? {
      return Broken, [];
    }
    var orders := query.value;
    found := orders;
    QueryIsTracked(before, store.events, found, userId, Token(symbol));
    var done := RequestAll(store, orders, before);
    if !done {
      return Broken, found;
    }
    TrackedMeansRequested(found, before, store.rows, store.events);
    done := stream.Append(draft.value, took, heard);
    if done {
      return Requested(|orders|), found;
    }
    RequestedIsRequestedOrFailed(found, before, store.rows, store.events);
    RecordAllFailures(store, orders, before);
    response := AppendFailed;
  }
}
