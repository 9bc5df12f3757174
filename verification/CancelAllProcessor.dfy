/**
  Processing a cancel-all command: the user's open orders of one symbol are marked, the exchange is
  asked once, and its results are matched back to the local orders one by one.
 */
module CancelAllProcessor {
  import opened Wrappers
  import opened Text
  import opened Orders
  import opened Placement
  import opened Store
  import opened SubmitProcessor
  import opened CancelProcessor

  /** A local order as the query read it. */
  datatype Found = Found(orderId: OrderId, row: Row)

  predicate Wanted(row: Row, userId: string, symbol: string) {
    row.intent.userId == userId && row.intent.symbol == symbol && CancelOpen(row.status)
  }

  predicate DistinctOrders(found: seq<Found>) {
    forall i, j :: 0 <= i < j < |found| ==> found[i].orderId != found[j].orderId
  }

  predicate IsFound(found: seq<Found>, id: OrderId) {
    exists i :: 0 <= i < |found| && found[i].orderId == id
  }

  function Ids(found: seq<Found>): set<OrderId> {
    set i | 0 <= i < |found| :: found[i].orderId
  }

  /** Exactly the wanted rows, each once. */
  ghost predicate IsQuery(found: seq<Found>, rows: Rows, userId: string, symbol: string) {
    && DistinctOrders(found)
    && (forall i :: 0 <= i < |found| ==> RowAt(rows, found[i].orderId) == Some(found[i].row))
    && (forall id :: IsFound(found, id) <==> id in rows && Wanted(rows[id], userId, symbol))
  }

  /** `findLocalOpenOrders`. The order by creation time is not modelled: any order may come out. */
  method FindLocalOpenOrders(store: OrderStore, userId: string, symbol: string) returns (r: Result<seq<Found>>)
    requires store.Valid() && store.Now().attempt.Idle?
    modifies store`history
    ensures store.Valid() && store.Grows() && OnlyRows(old(store.Now()), store.Now())
    ensures r.Err? ==> Interrupted(old(store.history), store.history)
    ensures r.Ok? ==> IsQuery(r.value, store.rows, userId, symbol)
  {
    if * {
      store.Note(Interrupt);
      return Err("");
    }
    var (keys, found) := (store.rows.Keys, []);
    while keys != {}
      invariant keys <= store.rows.Keys && DistinctOrders(found)
      invariant forall i :: 0 <= i < |found| ==> RowAt(store.rows, found[i].orderId) == Some(found[i].row)
      invariant forall i :: 0 <= i < |found| ==> found[i].orderId !in keys && Wanted(found[i].row, userId, symbol)
      invariant forall id :: id in store.rows && id !in keys && Wanted(store.rows[id], userId, symbol) ==>
          IsFound(found, id)
      decreases keys
    {
      var id :| id in keys;
      ghost var before := found;
      if Wanted(store.rows[id], userId, symbol) {
        found := found + [Found(id, store.rows[id])];
        assert found[|before|].orderId == id;
      }
      forall other | IsFound(before, other)
        ensures IsFound(found, other)
      {
        var i :| 0 <= i < |before| && before[i].orderId == other;
        assert found[i].orderId == other;
      }
      keys := keys - {id};
    }
    r := Ok(found);
  }

  // ---------- following several rows at once ----------

  /** The found rows are now as in state, all others as in before; the first n have an event of their status. */
  ghost predicate Tracks(before: Rows, rows: Rows, events: seq<Event>, found: seq<Found>, state: seq<Row>, n: nat) {
    && |state| == |found|
    && (forall i :: 0 <= i < |found| ==> RowAt(rows, found[i].orderId) == Some(state[i]))
    && (forall id :: !IsFound(found, id) ==> RowAt(rows, id) == RowAt(before, id))
    && (forall i :: 0 <= i < n && i < |found| ==> EventMatchesRow(rows, events, found[i].orderId))
  }

  lemma TrackOne(before: Rows, rows: Rows, events: seq<Event>, found: seq<Found>, state: seq<Row>, n: nat,
                 k: nat, row: Row, event: Event)
    requires DistinctOrders(found) && Tracks(before, rows, events, found, state, n)
    requires k < |found| && k <= n && event.orderId == found[k].orderId && event.status == row.status
    ensures Tracks(before, rows[found[k].orderId := row], events + [event], found, state[k := row],
        if k == n then n + 1 else n)
  {
    hide LastEvent;
    var id := found[k].orderId;
    assert IsFound(found, id);
    forall i | 0 <= i < |found| && (i < n || i == k)
      ensures EventMatchesRow(rows[id := row], events + [event], found[i].orderId)
    {
      LastEventOfAppend(events, event, found[i].orderId);
    }
  }

  lemma HarmlessWidens(rows: Rows, rows': Rows, rows'': Rows, found: seq<Found>, k: nat)
    requires k < |found| && Harmless(rows, rows', Ids(found)) && Harmless(rows', rows'', {found[k].orderId})
    ensures Harmless(rows, rows'', Ids(found))
  {
    assert found[k].orderId in Ids(found);
  }

  lemma NothingWritten(rows: Rows, ids: set<OrderId>)
    ensures Harmless(rows, rows, ids)
  {
  }

  // ---------- the first loop ----------

  function Pending(found: seq<Found>): (state: seq<Row>)
    ensures |state| == |found|
  {
    seq(|found|, i requires 0 <= i < |found| => CancelPendingRow(found[i].row))
  }

  function Read(found: seq<Found>): seq<Row> {
    seq(|found|, i requires 0 <= i < |found| => found[i].row)
  }

  /** One event of the given status for every order read. */
  function EventsOf(found: seq<Found>, status: Status): (events: seq<Event>)
    ensures |events| == |found|
  {
    seq(|found|, i requires 0 <= i < |found| => OrderEvent(found[i].orderId, found[i].row, status))
  }

  method MarkAll(store: OrderStore, found: seq<Found>, ghost before: Rows) returns (done: bool)
    requires store.Valid() && store.Now().attempt.Idle? && DistinctOrders(found)
    requires store.rows == before && Tracks(before, store.rows, store.events, found, Read(found), 0)
    modifies store`rows, store`events, store`history
    ensures store.Valid() && store.Grows() && OnlyRows(old(store.Now()), store.Now())
    ensures !done ==> Interrupted(old(store.history), store.history)
    ensures Harmless(before, store.rows, Ids(found))
    ensures done ==> Tracks(before, store.rows, store.events, found, Pending(found), |found|)
    ensures done ==> store.events == old(store.events) + EventsOf(found, CancelPending)
  {
    hide Harmless, Tracks, OrderEvent, CancelPendingRow, Run, Fresh, DistinctOrders, Ids;
    NothingWritten(before, Ids(found));
    ghost var state := Read(found);
    for k := 0 to |found|
      invariant store.Valid() && store.Grows() && OnlyRows(old(store.Now()), store.Now())
      invariant Harmless(before, store.rows, Ids(found))
      invariant |state| == |found| && state == Pending(found)[..k] + Read(found)[k..]
      invariant Tracks(before, store.rows, store.events, found, state, k)
      invariant store.events == old(store.events) + EventsOf(found, CancelPending)[..k]
    {
      ghost var (rows, events) := (store.rows, store.events);
      TracksRow(before, rows, events, found, state, k, k);
      done := MarkCancelPending(store, found[k].orderId, found[k].row);
      HarmlessWidens(before, rows, store.rows, found, k);
      if !done {
        return;
      }
      MarkedFits(found[k].orderId, found[k].row);
      TrackOne(before, rows, events, found, state, k, k, CancelPendingRow(found[k].row),
               OrderEvent(found[k].orderId, found[k].row, CancelPending));
      state := state[k := CancelPendingRow(found[k].row)];
    }
    assert state == Pending(found);
    done := true;
  }

  lemma TracksRow(before: Rows, rows: Rows, events: seq<Event>, found: seq<Found>, state: seq<Row>, n: nat, k: nat)
    requires Tracks(before, rows, events, found, state, n) && k < |found|
    ensures |state| == |found| && RowAt(rows, found[k].orderId) == Some(state[k])
  {
  }

  lemma MarkedFits(id: OrderId, row: Row)
    ensures OrderEvent(id, row, CancelPending).orderId == id
    ensures OrderEvent(id, row, CancelPending).status == CancelPendingRow(row).status
  {
  }

  lemma Advance<T>(done: seq<T>, todo: seq<T>, k: nat, next: T)
    requires |done| == |todo| && k < |done| && next == done[k]
    ensures (done[..k] + todo[k..])[k := next] == done[..k + 1] + todo[k + 1..]
    ensures done[..k] + [next] == done[..k + 1]
  {
  }

  // ---------- a refusal ----------

  function RejectedRows(found: seq<Found>, reason: string): (state: seq<Row>)
    ensures |state| == |found|
  {
    seq(|found|, i requires 0 <= i < |found| => CancelRejectedRow(found[i].row, reason))
  }

  function RejectedMessages(found: seq<Found>, reason: string): (messages: seq<Message>)
    ensures |messages| == |found|
  {
    seq(|found|, i requires 0 <= i < |found| => CancelRejectedMessage(found[i].orderId, found[i].row, reason))
  }

  lemma RejectedAt(found: seq<Found>, reason: string, k: nat)
    requires k < |found|
    ensures RejectedRows(found, reason)[k] == CancelRejectedRow(found[k].row, reason)
    ensures RejectedMessages(found, reason)[k] == CancelRejectedMessage(found[k].orderId, found[k].row, reason)
    ensures Pending(found)[k] == CancelPendingRow(found[k].row)
  {
  }

  /** `rejectCancelAllLocalOrders`. */
  method RejectAll(store: OrderStore, found: seq<Found>, reason: string, ghost before: Rows) returns (done: bool)
    requires store.Valid() && store.Now().attempt.Idle? && DistinctOrders(found)
    requires Tracks(before, store.rows, store.events, found, Pending(found), |found|)
    requires Harmless(before, store.rows, Ids(found))
    modifies store
    ensures store.Valid() && store.Grows() && OnlyRows(old(store.Now()), store.Now())
    ensures !done ==> Interrupted(old(store.history), store.history)
    ensures Harmless(before, store.rows, Ids(found))
    ensures done ==> Tracks(before, store.rows, store.events, found, RejectedRows(found, reason), |found|)
    ensures done ==> store.published == old(store.published) + RejectedMessages(found, reason)
    ensures done ==> store.events == old(store.events) + EventsOf(found, CancelRejected)
  {
    hide Harmless, Tracks, OrderEvent, CancelPendingRow, CancelRejectedRow, CancelRejectedMessage, Run, Fresh,
        DistinctOrders, Ids;
    ghost var (target, state, messages) :=
        (RejectedRows(found, reason), Pending(found), RejectedMessages(found, reason));
    hide RejectedRows, Pending, RejectedMessages;
    for k := 0 to |found|
      invariant store.Valid() && store.Grows() && OnlyRows(old(store.Now()), store.Now())
      invariant Harmless(before, store.rows, Ids(found))
      invariant |state| == |found| && state == target[..k] + Pending(found)[k..]
      invariant Tracks(before, store.rows, store.events, found, state, |found|)
      invariant store.published == old(store.published) + messages[..k]
      invariant store.events == old(store.events) + EventsOf(found, CancelRejected)[..k]
    {
      ghost var (rows, events) := (store.rows, store.events);
      TracksRow(before, rows, events, found, state, |found|, k);
      done := RejectCancelOrder(store, found[k].orderId, found[k].row, reason);
      HarmlessWidens(before, rows, store.rows, found, k);
      if !done {
        return;
      }
      RejectedFits(found[k].orderId, found[k].row, reason);
      RejectedAt(found, reason, k);
      Advance(target, Pending(found), k, target[k]);
      Advance(messages, messages, k, messages[k]);
      TrackOne(before, rows, events, found, state, |found|, k, CancelRejectedRow(found[k].row, reason),
               OrderEvent(found[k].orderId, found[k].row, CancelRejected));
      state := state[k := CancelRejectedRow(found[k].row, reason)];
    }
    assert state == target;
    done := true;
  }

  lemma RejectedFits(id: OrderId, row: Row, reason: string)
    ensures CancelRejectedRow(CancelPendingRow(row), reason) == CancelRejectedRow(row, reason)
    ensures OrderEvent(id, row, CancelRejected).orderId == id
    ensures OrderEvent(id, row, CancelRejected).status == CancelRejectedRow(row, reason).status
  {
  }

  // ---------- the exchange's results ----------

  function ByOrderId(found: seq<Found>, id: OrderId): (k: Option<nat>)
    ensures k.Some? ==> k.value < |found| && found[k.value].orderId == id
    ensures k.None? ==> !IsFound(found, id)
  {
    if found == [] then None
    else if found[|found| - 1].orderId == id then Some(|found| - 1)
    else ByOrderId(found[..|found| - 1], id)
  }

  /** Of several local orders with the same exchange id the last one read counts. */
  function ByExchangeId(found: seq<Found>, exchangeId: int): (k: Option<nat>)
    ensures k.Some? ==> k.value < |found| && found[k.value].row.binanceOrderId == Some(exchangeId) &&
                        forall i :: k.value < i < |found| ==> found[i].row.binanceOrderId != Some(exchangeId)
    ensures k.None? ==> forall i :: 0 <= i < |found| ==> found[i].row.binanceOrderId != Some(exchangeId)
  {
    if found == [] then None
    else if found[|found| - 1].row.binanceOrderId == Some(exchangeId) then Some(|found| - 1)
    else ByExchangeId(found[..|found| - 1], exchangeId)
  }

  function ClientOrderId(reply: Reply): Option<string> {
    OrElse(OptionalText(reply.origClientOrderId), OptionalText(reply.clientOrderId))
  }

  /** The local order a result is about: by client order id, or else by exchange id. */
  function Resolve(found: seq<Found>, reply: Reply): (k: Option<nat>)
    ensures k.Some? ==> k.value < |found|
  {
    var client := ClientOrderId(reply);
    var byClient := if client.Some? then ByOrderId(found, client.value) else None;
    if byClient.Some? then byClient
    else if reply.orderId.Some? then ByExchangeId(found, reply.orderId.value)
    else None
  }

  /**
    A result is about the order with its client order id if that was read, otherwise about the last
    one read with its exchange id, otherwise about none.
   */
  lemma ResolveMeans(found: seq<Found>, reply: Reply)
    ensures var k := Resolve(found, reply);
            var (first, second) := (Trim(reply.origClientOrderId.GetOr("")), Trim(reply.clientOrderId.GetOr("")));
            var client := if first != "" then Some(first) else if second != "" then Some(second) else None;
            if client.Some? && IsFound(found, client.value) then k.Some? && found[k.value].orderId == client.value
            else if k.Some? then
              && reply.orderId.Some? && found[k.value].row.binanceOrderId == reply.orderId
              && forall i :: k.value < i < |found| ==> found[i].row.binanceOrderId != reply.orderId
            else reply.orderId.Some? ==> forall i :: 0 <= i < |found| ==> found[i].row.binanceOrderId != reply.orderId
  {
    EmptyStaysEmpty();
    hide Trim;
    if ClientOrderId(reply).Some? {
      var k := ByOrderId(found, ClientOrderId(reply).value);
    }
  }

  function CountResolved(found: seq<Found>, replies: seq<Reply>): nat {
    if replies == [] then 0
    else CountResolved(found, replies[..|replies| - 1]) + if Resolve(found, replies[|replies| - 1]).Some? then 1 else 0
  }

  /** The found rows once the results have been worked through. */
  function SettledRows(found: seq<Found>, replies: seq<Reply>): (state: seq<Row>)
    ensures |state| == |found|
  {
    if replies == [] then Pending(found)
    else
      var state := SettledRows(found, replies[..|replies| - 1]);
      var (reply, k) := (replies[|replies| - 1], Resolve(found, replies[|replies| - 1]));
      if k.None? then state else state[k.value := CanceledRow(state[k.value], found[k.value].row, reply)]
  }

  function LastReply(found: seq<Found>, replies: seq<Reply>, k: nat): Option<Reply> {
    if replies == [] then None
    else if Resolve(found, replies[|replies| - 1]) == Some(k) then Some(replies[|replies| - 1])
    else LastReply(found, replies[..|replies| - 1], k)
  }

  /**
    Each order ends with the status of the last result that is about it, or still waiting for its
    cancellation if there is none; what it asked for is kept.
   */
  lemma {:induction false} SettledStatus(found: seq<Found>, replies: seq<Reply>, k: nat)
    requires k < |found|
    ensures var last := LastReply(found, replies, k);
            SettledRows(found, replies)[k].status == if last.Some? then CancelStatus(last.value) else CancelPending
    ensures SettledRows(found, replies)[k].intent == found[k].row.intent
  {
    hide Resolve, CanceledRow, CancelStatus;
    if replies != [] {
      var (before, reply) := (replies[..|replies| - 1], replies[|replies| - 1]);
      SettledStatus(found, before, k);
      if Resolve(found, reply) == Some(k) {
        CanceledRowKeeps(SettledRows(found, before)[k], found[k].row, reply);
      }
    }
  }

  /**
    An order ends with an exchange id exactly if it had one when it was read, or the last result about
    it names one: a later result without an id erases what an earlier one brought.
   */
  lemma {:induction false} SettledExchangeId(found: seq<Found>, replies: seq<Reply>, k: nat)
    requires k < |found|
    ensures var last := LastReply(found, replies, k);
            SettledRows(found, replies)[k].binanceOrderId.Some? <==>
            found[k].row.binanceOrderId.Some? || (last.Some? && last.value.orderId.Some?)
  {
    hide Resolve, CanceledRow;
    if replies != [] {
      var (before, reply) := (replies[..|replies| - 1], replies[|replies| - 1]);
      SettledExchangeId(found, before, k);
      if Resolve(found, reply) == Some(k) {
        CanceledRowKeeps(SettledRows(found, before)[k], found[k].row, reply);
      }
    }
  }

  function NamedReply(exchangeId: Option<int>, clientOrderId: string): Reply {
    Reply(exchangeId, Some(clientOrderId), None, None, None, None, None, None)
  }

  lemma NamedClient(exchangeId: Option<int>)
    ensures ClientOrderId(NamedReply(exchangeId, "a")) == Some("a")
  {
    hide Trim;
    NothingToTrim("a");
  }

  lemma NamedResolves(row: Row, exchangeId: Option<int>)
    ensures Resolve([Found("a", row)], NamedReply(exchangeId, "a")) == Some(0)
  {
    hide Resolve, ClientOrderId, ByOrderId, ByExchangeId, OptionalText;
    var found := [Found("a", row)];
    NamedClient(exchangeId);
    ResolveMeans(found, NamedReply(exchangeId, "a"));
    assert found[0].orderId == "a";
  }

  /** The rows after a first result for order "a" that names exchange id 7, and after a second one that names none. */
  function OneResult(row: Row): Row {
    SettledRows([Found("a", row)], [NamedReply(Some(7), "a")])[0]
  }

  function TwoResults(row: Row): Row {
    SettledRows([Found("a", row)], [NamedReply(Some(7), "a"), NamedReply(None, "a")])[0]
  }

  lemma {:induction false} SecondResultErasesId(row: Row)
    requires row.binanceOrderId.None?
    ensures OneResult(row).binanceOrderId.Some? && TwoResults(row).binanceOrderId.None?
  {
    hide Resolve, SettledRows, CanceledRow;
    var (found, first, second) := ([Found("a", row)], NamedReply(Some(7), "a"), NamedReply(None, "a"));
    NamedResolves(row, Some(7));
    NamedResolves(row, None);
    assert [first, second][..1] == [first] && [first][..0] == [];
    SettledExchangeId(found, [first], 0);
    SettledExchangeId(found, [first, second], 0);
  }

  lemma {:induction false} CountIsNumberResolved(found: seq<Found>, replies: seq<Reply>)
    ensures CountResolved(found, replies) == |set j | 0 <= j < |replies| && Resolve(found, replies[j]).Some?|
  {
    hide Resolve;
    if replies != [] {
      var n := |replies| - 1;
      CountIsNumberResolved(found, replies[..n]);
      var (fewer, all) := (set j | 0 <= j < n && Resolve(found, replies[..n][j]).Some?,
                           set j | 0 <= j < |replies| && Resolve(found, replies[j]).Some?);
      assert all == if Resolve(found, replies[n]).Some? then fewer + {n} else fewer;
    }
  }

  /** The events of the results: each says what its order's row has become by then. */
  function ResultEvents(found: seq<Found>, replies: seq<Reply>): seq<Event> {
    if replies == [] then []
    else
      var (fewer, k) := (ResultEvents(found, replies[..|replies| - 1]), Resolve(found, replies[|replies| - 1]));
      if k.None? then fewer
      else
        fewer + [CanceledEvent(found[k.value].orderId, SettledRows(found, replies)[k.value], found[k.value].row)]
  }

  function ResultMessages(found: seq<Found>, replies: seq<Reply>): seq<Message> {
    if replies == [] then []
    else
      var (fewer, k) := (ResultMessages(found, replies[..|replies| - 1]), Resolve(found, replies[|replies| - 1]));
      if k.None? then fewer
      else
        fewer + [CanceledMessage(found[k.value].orderId, SettledRows(found, replies)[k.value], found[k.value].row)]
  }

  lemma {:induction false} OneMessagePerResult(found: seq<Found>, replies: seq<Reply>)
    ensures |ResultMessages(found, replies)| == CountResolved(found, replies) == |ResultEvents(found, replies)|
  {
    hide Resolve, SettledRows;
    if replies != [] {
      OneMessagePerResult(found, replies[..|replies| - 1]);
    }
  }

  /** One result that resolves to the k-th order read. */
  method PersistResult(store: OrderStore, found: seq<Found>, k: nat, reply: Reply, ghost before: Rows,
                       ghost state: seq<Row>) returns (done: bool)
    requires store.Valid() && store.Now().attempt.Idle? && DistinctOrders(found) && k < |found|
    requires ReadFrom(found, before) && forall id :: id in store.Now().saved ==> HasExchangeId(before, id)
    requires Tracks(before, store.rows, store.events, found, state, |found|)
    requires Harmless(before, store.rows, Ids(found))
    modifies store
    ensures store.Valid() && store.Grows() && OnlyRows(old(store.Now()), store.Now())
    ensures !done ==> Interrupted(old(store.history), store.history)
    ensures Harmless(before, store.rows, Ids(found)) && |state| == |found|
    ensures var row := CanceledRow(state[k], found[k].row, reply);
            done ==> && Tracks(before, store.rows, store.events, found, state[k := row], |found|)
                     && store.events == old(store.events) + [CanceledEvent(found[k].orderId, row, found[k].row)]
                     && store.published ==
                          old(store.published) + [CanceledMessage(found[k].orderId, row, found[k].row)]
  {
    hide Harmless, Tracks, CanceledEvent, CanceledMessage, CanceledRow, Run, Fresh, DistinctOrders, Ids, ReadFrom;
    ghost var (rows, events) := (store.rows, store.events);
    var existing := found[k];
    TracksRow(before, rows, events, found, state, |found|, k);
    ghost var row := CanceledRow(state[k], existing.row, reply);
    CanceledRowKeeps(state[k], existing.row, reply);
    CanceledFits(existing.orderId, state[k], existing.row, reply);
    ResultIsHarmless(before, rows, found, k, row);
    TrackOne(before, rows, events, found, state, |found|, k, row, CanceledEvent(existing.orderId, row, existing.row));
    done := PersistCanceledOrder(store, existing.orderId, existing.row, reply);
  }

  method PersistAll(store: OrderStore, found: seq<Found>, replies: seq<Reply>, ghost before: Rows)
    returns (done: bool, canceledCount: nat)
    requires store.Valid() && store.Now().attempt.Idle? && DistinctOrders(found)
    requires ReadFrom(found, before) && forall id :: id in store.Now().saved ==> HasExchangeId(before, id)
    requires Tracks(before, store.rows, store.events, found, Pending(found), |found|)
    requires Harmless(before, store.rows, Ids(found))
    modifies store
    ensures store.Valid() && store.Grows() && OnlyRows(old(store.Now()), store.Now())
    ensures !done ==> Interrupted(old(store.history), store.history)
    ensures Harmless(before, store.rows, Ids(found))
    ensures done ==> && Tracks(before, store.rows, store.events, found, SettledRows(found, replies), |found|)
                     && canceledCount == CountResolved(found, replies)
                     && store.events == old(store.events) + ResultEvents(found, replies)
                     && store.published == old(store.published) + ResultMessages(found, replies)
  {
    hide Harmless, Tracks, CanceledEvent, CanceledMessage, CanceledRow, Resolve, Run, Fresh, DistinctOrders, Ids,
        Pending, ReadFrom;
    canceledCount := 0;
    for j := 0 to |replies|
      invariant store.Valid() && store.Grows() && OnlyRows(old(store.Now()), store.Now())
      invariant Harmless(before, store.rows, Ids(found))
      invariant Tracks(before, store.rows, store.events, found, SettledRows(found, replies[..j]), |found|)
      invariant canceledCount == CountResolved(found, replies[..j])
      invariant store.events == old(store.events) + ResultEvents(found, replies[..j])
      invariant store.published == old(store.published) + ResultMessages(found, replies[..j])
    {
      assert replies[..j + 1][..j] == replies[..j];
      var reply := replies[j];
      var k := Resolve(found, reply);
      if k.Some? {
        done := PersistResult(store, found, k.value, reply, before, SettledRows(found, replies[..j]));
        if !done {
          return;
        }
        canceledCount := canceledCount + 1;
      }
    }
    assert replies[..|replies|] == replies;
    done := true;
  }

  /** The rows found are the rows there were. */
  ghost predicate ReadFrom(found: seq<Found>, before: Rows) {
    forall i :: 0 <= i < |found| ==> RowAt(before, found[i].orderId) == Some(found[i].row)
  }

  /**
    Writing one of the found rows, with an exchange id if it had one when it was read, harms
    nothing that was there before.
   */
  lemma ResultIsHarmless(before: Rows, rows: Rows, found: seq<Found>, k: nat, row: Row)
    requires ReadFrom(found, before) && k < |found| && Harmless(before, rows, Ids(found))
    requires found[k].orderId in rows && row.intent == rows[found[k].orderId].intent
    requires found[k].row.binanceOrderId.Some? ==> row.binanceOrderId.Some?
    ensures Harmless(before, rows[found[k].orderId := row], Ids(found))
    ensures HasExchangeId(before, found[k].orderId) ==> found[k].row.binanceOrderId.Some?
  {
    assert found[k].orderId in Ids(found);
  }

  lemma CanceledFits(id: OrderId, current: Row, existing: Row, reply: Reply)
    ensures var row := CanceledRow(current, existing, reply);
            CanceledEvent(id, row, existing).orderId == id && CanceledEvent(id, row, existing).status == row.status
  {
  }

  // ---------- the command ----------

  /** What a completed cancel-all leaves: which rows, with which status, and how many results it counts. */
  ghost predicate AllCanceled(found: seq<Found>, replies: seq<Reply>, before: Rows, rows: Rows, events: seq<Event>) {
    && (forall id :: !IsFound(found, id) ==> RowAt(rows, id) == RowAt(before, id))
    && (forall k :: 0 <= k < |found| ==>
          && RowAt(rows, found[k].orderId) == Some(SettledRows(found, replies)[k])
          && EventMatchesRow(rows, events, found[k].orderId))
  }

  ghost predicate AllRejected(found: seq<Found>, reason: string, before: Rows, rows: Rows, events: seq<Event>) {
    && (forall id :: !IsFound(found, id) ==> RowAt(rows, id) == RowAt(before, id))
    && (forall k :: 0 <= k < |found| ==>
          && RowAt(rows, found[k].orderId) == Some(CancelRejectedRow(found[k].row, reason))
          && EventMatchesRow(rows, events, found[k].orderId))
  }

  /** Why a cancel-all is refused, if it is. */
  function CancelAllRefusal(credential: Option<string>, answer: CancelAllAnswer): Option<(Why, string)> {
    if credential.Some? then Some((Credential, Because(credential.value, CREDENTIAL_FALLBACK)))
    else if answer.NoneCanceled? then Some((Exchange, Because(answer.message, CANCEL_ALL_FALLBACK)))
    else None
  }

  /**
    `processOrderCancelAllCommand`. Its orders are exactly the user's open ones of the symbol; no
    other row is written and no exchange id that was there before is lost, whether or not a call fails.
   */
  method ProcessCancelAll(store: OrderStore, userId: string, symbol: string, credential: Option<string>,
      answer: CancelAllAnswer)
    returns (outcome: Outcome, ghost found: seq<Found>)
    requires store.Valid() && store.Now().attempt.Idle?
    modifies store
    ensures store.Valid() && store.Grows() && OnlyRows(old(store.Now()), store.Now())
    ensures outcome.Threw? ==> Interrupted(old(store.history), store.history)
    ensures Harmless(old(store.rows), store.rows, Ids(found))
    ensures IsQuery(found, old(store.rows), userId, symbol) || (outcome.Threw? && found == [])
    ensures !outcome.Threw? ==>
              var refusal := CancelAllRefusal(credential, answer);
              if refusal.Some? then
                && outcome == Refused(refusal.value.0)
                && AllRejected(found, refusal.value.1, old(store.rows), store.rows, store.events)
                && store.published == old(store.published) + RejectedMessages(found, refusal.value.1)
                && store.events == old(store.events) + EventsOf(found, CancelPending) + EventsOf(found, CancelRejected)
              else
                && outcome == CancelAllDone(|found|, CountResolved(found, answer.replies))
                && AllCanceled(found, answer.replies, old(store.rows), store.rows, store.events)
                && store.published == old(store.published) + ResultMessages(found, answer.replies)
                && store.events ==
                     old(store.events) + EventsOf(found, CancelPending) + ResultEvents(found, answer.replies)
    ensures !outcome.Threw? ==>
              && (forall id :: IsFound(found, id) <==>
                    && id in old(store.rows)
                    && old(store.rows)[id].intent.userId == userId && old(store.rows)[id].intent.symbol == symbol
                    && old(store.rows)[id].status in {Received, Status.Pending, Submitted, PartiallyFilled,
                         CancelRequested, CancelPending, CancelRejected, CancelAppendFailed})
              && (credential.Some? ==>
                    && outcome == Refused(Credential)
                    && EndRejected(found, store.rows,
                         if credential.value != "" then credential.value else "Exchange credential not found"))
              && (credential.None? && answer.NoneCanceled? ==>
                    && outcome == Refused(Exchange)
                    && EndRejected(found, store.rows,
                         if answer.message != "" then answer.message else "Binance cancel-all failed"))
              && (credential.None? && answer.AllReported? ==>
                    && outcome.CancelAllDone? && outcome.affected == |found|
                    && EndSettled(found, answer.replies, store.rows))
  {
    hide Harmless, Tracks, Run, Fresh, Ids, IsQuery, CancelRejectedRow, RejectedMessages, AllCanceled, EventsOf,
        AllRejected, EndRejected, EndSettled, ResultEvents, ResultMessages, IsFound;
    ghost var before := store.rows;
    store.SavedIsRecorded();
    NothingWritten(before, Ids([]));
    var query := FindLocalOpenOrders(store, userId, symbol);
    if query.Err? {
      return Threw, [];
    }
    var orders := query.value;
    found := orders;
    NothingWritten(before, Ids(found));
    QueryIsTracked(before, store.events, found, userId, symbol);
    QueryMeans(found, before, userId, symbol);
    var done := MarkAll(store, orders, before);
    if !done {
      return Threw, found;
    }
    if credential.Some? || answer.NoneCanceled? {
      var (why, reason) :=
        if credential.Some? then (Credential, Because(credential.value, CREDENTIAL_FALLBACK))
        else (Exchange, Because(answer.message, CANCEL_ALL_FALLBACK));
      done := RejectAll(store, orders, reason, before);
      if done {
        TrackedMeansRejected(found, reason, before, store.rows, store.events);
        RejectedEnds(found, reason, before, store.rows, store.events);
      }
      outcome := if done then Refused(why) else Threw;
    } else {
      var canceledCount;
      done, canceledCount := PersistAll(store, orders, answer.replies, before);
      if done {
        TrackedMeansCanceled(found, answer.replies, before, store.rows, store.events);
        CanceledEnds(found, answer.replies, before, store.rows, store.events);
      }
      outcome := if done then CancelAllDone(|orders|, canceledCount) else Threw;
    }
  }

  /** Every order read is rejected with the reason. */
  ghost predicate EndRejected(found: seq<Found>, rows: Rows, reason: string) {
    forall k :: 0 <= k < |found| ==>
      && found[k].orderId in rows && rows[found[k].orderId].status == CancelRejected
      && rows[found[k].orderId].errorMsg == Some(reason)
  }

  /**
    Every order read has the status of the last result about it, or waits for its cancellation, and an
    exchange id exactly if it had one or that result names one.
   */
  ghost predicate EndSettled(found: seq<Found>, replies: seq<Reply>, rows: Rows) {
    forall k :: 0 <= k < |found| ==>
      var last := LastReply(found, replies, k);
      && found[k].orderId in rows
      && rows[found[k].orderId].status ==
           (if last.None? then CancelPending
            else if last.value.status.GetOr("") == "" then Canceled
            else NormalizeOrderStatus(last.value.status))
      && (rows[found[k].orderId].binanceOrderId.Some? <==>
            found[k].row.binanceOrderId.Some? || (last.Some? && last.value.orderId.Some?))
  }

  lemma RejectedEnds(found: seq<Found>, reason: string, before: Rows, rows: Rows, events: seq<Event>)
    requires AllRejected(found, reason, before, rows, events)
    ensures EndRejected(found, rows, reason)
  {
    hide EventMatchesRow;
  }

  lemma {:induction false} CanceledEnds(found: seq<Found>, replies: seq<Reply>, before: Rows, rows: Rows,
      events: seq<Event>)
    requires AllCanceled(found, replies, before, rows, events)
    ensures EndSettled(found, replies, rows)
  {
    hide EventMatchesRow, SettledRows, LastReply, NormalizeOrderStatus;
    forall k | 0 <= k < |found|
      ensures var (last, row) := (LastReply(found, replies, k), SettledRows(found, replies)[k]);
              && row.status == (if last.None? then CancelPending
                                else if last.value.status.GetOr("") == "" then Canceled
                                else NormalizeOrderStatus(last.value.status))
              && (row.binanceOrderId.Some? <==>
                    found[k].row.binanceOrderId.Some? || (last.Some? && last.value.orderId.Some?))
    {
      SettledStatus(found, replies, k);
      SettledExchangeId(found, replies, k);
      if LastReply(found, replies, k).Some? {
        CanceledStatusMeans(found[k].row, found[k].row, LastReply(found, replies, k).value);
      }
    }
  }

  lemma QueryMeans(found: seq<Found>, rows: Rows, userId: string, symbol: string)
    requires IsQuery(found, rows, userId, symbol)
    ensures forall id :: IsFound(found, id) <==>
              && id in rows && rows[id].intent.userId == userId && rows[id].intent.symbol == symbol
              && rows[id].status in {Received, Status.Pending, Submitted, PartiallyFilled, CancelRequested,
                   CancelPending, CancelRejected, CancelAppendFailed}
  {
    hide IsFound;
  }

  lemma QueryIsTracked(before: Rows, events: seq<Event>, found: seq<Found>, userId: string, symbol: string)
    requires IsQuery(found, before, userId, symbol)
    ensures DistinctOrders(found) && ReadFrom(found, before) && Tracks(before, before, events, found, Read(found), 0)
  {
  }

  lemma TrackedMeansRejected(found: seq<Found>, reason: string, before: Rows, rows: Rows, events: seq<Event>)
    requires Tracks(before, rows, events, found, RejectedRows(found, reason), |found|)
    ensures AllRejected(found, reason, before, rows, events)
  {
  }

  lemma TrackedMeansCanceled(found: seq<Found>, replies: seq<Reply>, before: Rows, rows: Rows, events: seq<Event>)
    requires Tracks(before, rows, events, found, SettledRows(found, replies), |found|)
    ensures AllCanceled(found, replies, before, rows, events)
  {
    hide EventMatchesRow;
  }
}
