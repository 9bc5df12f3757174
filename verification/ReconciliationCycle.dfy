/**
  One reconciliation cycle over the stored orders that may have moved on at the exchange: each is
  fetched, reconciled and counted; an error with one of them does not stop the others. Everyone else
  may write the same orders between the query of the batch and the updates.
 */
module ReconciliationCycle {
  import opened Wrappers
  import opened Orders
  import opened Placement
  import opened Store
  import opened SubmitProcessor
  import opened CancelProcessor
  import opened CancelAllProcessor
  import opened Reconciliation
  import opened AccountSnapshots

  /** The exchange's answers about one order: its snapshot and, if they could be fetched, its trades. */
  datatype Fetched = Fetched(snapshot: Reply, trades: Option<seq<Trade>>) | NotFetched

  datatype Summary = Summary(
    ordersChecked: nat, ordersUpdated: nat, orderEventsCreated: nat, accountsPublished: nat, errors: nat)

  predicate Reconcilable(status: Status) {
    status in {Status.Pending, Status.Submitted, PartiallyFilled, CancelRequested, CancelPending}
  }

  /** `loadOrderTrades`: no trades without an exchange id (zero is none) or a positive executed quantity. */
  function TradesUsed(row: Row, f: Fetched): seq<Trade>
    requires f.Fetched?
  {
    if OrElse(f.snapshot.orderId, row.binanceOrderId).GetOr(0) == 0 then []
    else if f.snapshot.executedQty.GetOr(row.executedQty) <= 0.0 then []
    else f.trades.GetOr([])
  }

  function AfterFetch(row: Row, f: Fetched): Row
    requires f.Fetched?
  {
    After(row, f.snapshot, TradesUsed(row, f))
  }

  predicate ChangedBy(row: Row, f: Fetched)
    requires f.Fetched?
  {
    Changed(row, Normalize(row, f.snapshot, TradesUsed(row, f)))
  }

  /** The next cycle with the same answers finds nothing to change, but for exactly the rows that need a second pass. */
  lemma {:induction false} NextCycleChangesNothing(row: Row, f: Fetched)
    requires f.Fetched?
    ensures ChangedBy(AfterFetch(row, f), f) <==> NeedsSecondPass(row, f.snapshot)
    ensures !ChangedBy(AfterFetch(AfterFetch(row, f), f), f)
  {
    hide NeedsSecondPass, MapStatus, StatusSource, Divide, LatestTrade, OptionalText;
    SameTrades(row, f);
    SameTrades(AfterFetch(row, f), f);
    hide Normalize, Changed, TradesUsed;
    SecondReconcileChangesNothing(row, f.snapshot, TradesUsed(row, f));
    TwoPassesSuffice(row, f.snapshot, TradesUsed(row, f));
  }

  lemma SameTrades(row: Row, f: Fetched)
    requires f.Fetched?
    ensures TradesUsed(AfterFetch(row, f), f) == TradesUsed(row, f)
  {
    hide MapStatus, StatusSource, Divide, LatestTrade, OptionalText, Changed;
  }

  // ---------- the cycle ----------

  /** `take`, kept between 1 and 500. */
  function Take(batchSize: int): nat {
    if batchSize < 1 then 1 else if batchSize > 500 then 500 else batchSize
  }

  ghost predicate IsBatch(found: seq<Found>, rows: Rows, batchSize: int) {
    && DistinctOrders(found) && |found| <= Take(batchSize)
    && forall i :: 0 <= i < |found| ==>
         RowAt(rows, found[i].orderId) == Some(found[i].row) && Reconcilable(found[i].row.status)
  }

  /** Some reconcilable rows, at most as many as one cycle takes; which of them are stale is up to the clock. */
  method FindStaleOrders(store: OrderStore, batchSize: int) returns (r: Result<seq<Found>>)
    requires store.Valid() && store.Now().attempt.Idle?
    modifies store`history
    ensures store.Valid() && store.Grows() && OnlyRows(old(store.Now()), store.Now())
    ensures r.Ok? ==> IsBatch(r.value, store.rows, batchSize)
  {
    if * {
      store.Note(Interrupt);
      return Err("");
    }
    var found := [];
    var keys := store.rows.Keys;
    while keys != {} && |found| < Take(batchSize)
      invariant keys <= store.rows.Keys && IsBatch(found, store.rows, batchSize)
      invariant forall i :: 0 <= i < |found| ==> found[i].orderId !in keys
      decreases keys
    {
      var id :| id in keys;
      var stale: bool := *;
      if stale && Reconcilable(store.rows[id].status) {
        found := found + [Found(id, store.rows[id])];
      }
      keys := keys - {id};
    }
    r := Ok(found);
  }

  /**
    What the cycle did with one order: between which points of the store's past, the rows and events
    at these points, whether its credential was loaded and the order fetched, and what it reports of it:
    an error, or whether it was updated.
   */
  datatype Visit = Visit(
    from: nat, to: nat, before: Rows, after: Rows, stored: seq<Event>, events: seq<Event>,
    reached: bool, result: Option<bool>)

  /** The row the order would get, if it changes. */
  function NewRow(order: Found, f: Fetched, row: Row): Row
    requires f.Fetched?
  {
    Reconciled(row, Normalize(order.row, f.snapshot, TradesUsed(order.row, f)))
  }

  predicate KnowsExchangeId(row: Row, f: Fetched) {
    row.binanceOrderId.Some? || (f.Fetched? && f.snapshot.orderId.Some?)
  }

  /**
    At most the order's own row was written, over whatever was stored by then, and at most one event
    was added. Unless an error is reported, it was written exactly if the row of the batch changes,
    and the last event agrees with it. Only if neither the row of the batch nor the snapshot has an
    exchange id can one be lost that others stored meanwhile.
   */
  ghost predicate Visited(order: Found, f: Fetched, loads: string -> bool, v: Visit) {
    var id := order.orderId;
    && id in v.before && Confined(v.before, v.after, id)
    && (v.after == v.before ||
        (f.Fetched? && ChangedBy(order.row, f) && v.after == v.before[id := NewRow(order, f, v.before[id])]))
    && (v.events == v.stored
        || (|v.events| == |v.stored| + 1 && v.stored <= v.events && v.events[|v.stored|].orderId == id))
    && (v.reached <==> f.Fetched? && loads(order.row.intent.userId))
    && (v.result.Some? ==> v.reached)
    && (v.result.Some? ==>
          && f.Fetched? && v.result.value == ChangedBy(order.row, f)
          && (v.result.value <==> !ShowsExchange(order.row, order.row, f.snapshot, TradesUsed(order.row, f)))
          && (v.result.value ==> ShowsExchange(v.after[id], order.row, f.snapshot, TradesUsed(order.row, f)))
          && v.after == (if v.result.value then v.before[id := NewRow(order, f, v.before[id])] else v.before)
          && (v.result.value ==> EventMatchesRow(v.after, v.events, id)))
    && (KnowsExchangeId(order.row, f) || v.before[id].binanceOrderId.None? ==> KeepsExchangeIds(v.before, v.after))
  }

  function Results(visits: seq<Visit>): (results: seq<Option<bool>>)
    ensures |results| == |visits|
  {
    seq(|visits|, i requires 0 <= i < |visits| => visits[i].result)
  }

  /**
    From that point of the past on the visits happened, one after the other. An order that was fetched
    is reported as an error only if a call of the store failed.
   */
  ghost predicate Happened(past: Past, since: nat, visits: seq<Visit>) {
    && (forall i :: 0 <= i < |visits| ==>
          && since <= visits[i].from <= visits[i].to <= |past.history|
          && RowsThen(past, visits[i].from) == Some(visits[i].before)
          && RowsThen(past, visits[i].to) == Some(visits[i].after)
          && visits[i].stored <= visits[i].events <= past.events
          && (visits[i].reached && visits[i].result.None? ==>
                Interrupted(past.history[..visits[i].from], past.history[..visits[i].to])))
    && (forall i, j :: 0 <= i < j < |visits| ==>
          visits[i].to <= visits[j].from && visits[i].events <= visits[j].stored)
  }

  ghost predicate AllVisited(found: seq<Found>, fetch: OrderId -> Fetched, loads: string -> bool, visits: seq<Visit>) {
    && |visits| <= |found|
    && forall i :: 0 <= i < |visits| ==> Visited(found[i], fetch(found[i].orderId), loads, visits[i])
  }

  // ---------- when nobody else writes ----------

  /** Every visit starts from the rows and events that the one before left behind. */
  ghost predicate Undisturbed(before: Rows, stored: seq<Event>, visits: seq<Visit>) {
    forall i :: 0 <= i < |visits| ==>
      visits[i].before == LastRows(before, visits[..i]) && visits[i].stored == LastEvents(stored, visits[..i])
  }

  function LastRows(before: Rows, visits: seq<Visit>): Rows {
    if visits == [] then before else visits[|visits| - 1].after
  }

  function LastEvents(stored: seq<Event>, visits: seq<Visit>): seq<Event> {
    if visits == [] then stored else visits[|visits| - 1].events
  }

  /** What the cycle may say of one order: an error, or whether it was updated. */
  ghost predicate Reported(found: Found, f: Fetched, result: Option<bool>, row: Row, rows: Rows, events: seq<Event>) {
    match result
    case None => row == found.row || (f.Fetched? && row == AfterFetch(found.row, f))
    case Some(updated) =>
      && f.Fetched? && row == AfterFetch(found.row, f) && updated == ChangedBy(found.row, f)
      && (updated ==> EventMatchesRow(rows, events, found.orderId))
  }

  /** The first orders have been reported on, the rest are as they were read, and no other row differs. */
  ghost predicate CycleAt(before: Rows, rows: Rows, events: seq<Event>, found: seq<Found>, fetch: OrderId -> Fetched,
                          state: seq<Row>, results: seq<Option<bool>>) {
    && |results| <= |found|
    && Tracks(before, rows, events, found, state, 0)
    && (forall i :: 0 <= i < |results| ==>
          Reported(found[i], fetch(found[i].orderId), results[i], state[i], rows, events))
    && (forall i :: |results| <= i < |found| ==> state[i] == found[i].row)
  }

  lemma {:induction false} ReportOne(before: Rows, rows: Rows, events: seq<Event>, found: seq<Found>,
      fetch: OrderId -> Fetched,
                  state: seq<Row>, results: seq<Option<bool>>, row: Row, rows': Rows, events': seq<Event>,
                      result: Option<bool>)
    requires CycleAt(before, rows, events, found, fetch, state, results)
    requires DistinctOrders(found) && |results| < |found|
    requires var id := found[|results|].orderId;
             && OnlyTouches(rows, rows', {id}) && RowAt(rows', id) == Some(row)
             && (events' == events
                 || (|events'| > 0 && events'[|events'| - 1].orderId == id && events'[..|events'| - 1] == events))
             && Reported(found[|results|], fetch(id), result, row, rows', events')
    ensures CycleAt(before, rows', events', found, fetch, state[|results| := row], results + [result])
  {
    hide LastEvent, AfterFetch, ChangedBy;
    var (k, id) := (|results|, found[|results|].orderId);
    assert IsFound(found, id);
    forall i | 0 <= i < |found| && i != k
      ensures RowAt(rows', found[i].orderId) == RowAt(rows, found[i].orderId)
      ensures LastEvent(events', found[i].orderId) == LastEvent(events, found[i].orderId)
    {
      assert found[i].orderId != id;
      if events' != events {
        assert events' == events + [events'[|events'| - 1]];
        LastEventOfAppend(events, events'[|events'| - 1], found[i].orderId);
      }
    }
  }

  /** One visit, if it found the row of the batch. */
  lemma {:induction false} VisitReports(order: Found, f: Fetched, loads: string -> bool, v: Visit)
    requires Visited(order, f, loads, v) && RowAt(v.before, order.orderId) == Some(order.row)
    ensures order.orderId in v.after && SubmitProcessor.Harmless(v.before, v.after, {order.orderId})
    ensures Reported(order, f, v.result, v.after[order.orderId], v.after, v.events)
    ensures v.events != v.stored ==>
              && |v.events| > 0 && v.events[..|v.events| - 1] == v.stored
              && v.events[|v.events| - 1].orderId == order.orderId
  {
    hide Normalize, Changed, TradesUsed, Reconciled, LastEvent;
    if f.Fetched? {
      AfterIsReconciled(order.row, f.snapshot, TradesUsed(order.row, f));
    }
  }

  /**
    If nobody else writes during the cycle, the rows and events end as the reports say, order by
    order, all other rows are as they were, and no intent or exchange id is lost.
   */
  lemma {:induction false} UndisturbedCycle(before: Rows, stored: seq<Event>, found: seq<Found>,
      fetch: OrderId -> Fetched, loads: string -> bool, visits: seq<Visit>) returns (state: seq<Row>)
    requires DistinctOrders(found) && ReadFrom(found, before)
    requires AllVisited(found, fetch, loads, visits) && Undisturbed(before, stored, visits)
    ensures CycleAt(before, LastRows(before, visits), LastEvents(stored, visits), found, fetch, state, Results(visits))
    ensures SubmitProcessor.Harmless(before, LastRows(before, visits), Ids(found))
  {
    hide Reported, SubmitProcessor.Harmless, Ids, CycleAt, DistinctOrders, Visited, Tracks, Undisturbed, AllVisited,
        ReadFrom, OnlyTouches;
    if visits == [] {
      state := Read(found);
      NothingWritten(before, Ids(found));
      NothingReported(before, stored, found, fetch);
    } else {
      var n := |visits| - 1;
      var (fewer, v) := (visits[..n], visits[n]);
      LastVisit(before, stored, found, fetch, loads, visits);
      state := UndisturbedCycle(before, stored, found, fetch, loads, fewer);
      CycleRow(before, v.before, v.stored, found, fetch, state, Results(fewer));
      VisitReports(found[n], fetch(found[n].orderId), loads, v);
      HarmlessWidens(before, v.before, v.after, found, n);
      HarmlessTouches(v.before, v.after, found[n].orderId);
      var row := v.after[found[n].orderId];
      ReportOne(before, v.before, v.stored, found, fetch, state, Results(fewer), row, v.after, v.events, v.result);
      assert Results(visits) == Results(fewer) + [v.result];
      state := state[n := row];
    }
  }

  lemma LastVisit(before: Rows, stored: seq<Event>, found: seq<Found>, fetch: OrderId -> Fetched,
      loads: string -> bool, visits: seq<Visit>)
    requires AllVisited(found, fetch, loads, visits) && Undisturbed(before, stored, visits) && visits != []
    ensures var (fewer, v) := (visits[..|visits| - 1], visits[|visits| - 1]);
            && AllVisited(found, fetch, loads, fewer) && Undisturbed(before, stored, fewer) && |fewer| < |found|
            && v.before == LastRows(before, fewer) && v.stored == LastEvents(stored, fewer)
            && Visited(found[|fewer|], fetch(found[|fewer|].orderId), loads, v)
  {
    hide Visited;
    var fewer := visits[..|visits| - 1];
    forall i | 0 <= i < |fewer|
      ensures fewer[i] == visits[i] && fewer[..i] == visits[..i]
    {
    }
  }

  lemma NothingReported(before: Rows, stored: seq<Event>, found: seq<Found>, fetch: OrderId -> Fetched)
    requires ReadFrom(found, before)
    ensures CycleAt(before, before, stored, found, fetch, Read(found), [])
  {
  }

  lemma CycleRow(before: Rows, rows: Rows, events: seq<Event>, found: seq<Found>, fetch: OrderId -> Fetched,
                 state: seq<Row>, results: seq<Option<bool>>)
    requires CycleAt(before, rows, events, found, fetch, state, results) && |results| < |found|
    ensures |state| == |found| && RowAt(rows, found[|results|].orderId) == Some(found[|results|].row)
  {
  }

  lemma HarmlessTouches(rows: Rows, rows': Rows, id: OrderId)
    requires SubmitProcessor.Harmless(rows, rows', {id})
    ensures OnlyTouches(rows, rows', {id})
  {
  }

  lemma AfterIsReconciled(row: Row, snapshot: Reply, trades: seq<Trade>)
    ensures var n := Normalize(row, snapshot, trades);
            After(row, snapshot, trades) == if Changed(row, n) then Reconciled(row, n) else row
  {
  }

  // ---------- the loop ----------

  /**
    The body of the cycle's loop for one order, after others have written what they like; any error
    is caught and reported as none.
   */
  method CheckOrder(store: OrderStore, order: Found, f: Fetched, loads: string -> bool, loaded: set<string>)
    returns (result: Option<bool>, credentials: set<string>, ghost visit: Visit)
    requires store.Valid() && store.Now().attempt.Idle? && order.orderId in store.rows
    requires forall user :: user in loaded ==> loads(user)
    modifies store
    ensures store.Valid() && store.Grows() && SameAttempts(old(store.Now()), store.Now())
    ensures old(store.rows).Keys <= store.rows.Keys
    ensures visit.result == result && Visited(order, f, loads, visit)
    ensures Happened(store.SoFar(), |old(store.history)|, [visit]) && old(store.events) <= visit.stored
    ensures forall user :: user in credentials ==> loads(user)
    ensures loaded <= credentials && (result.Some? ==> order.row.intent.userId in credentials)
  {
    hide Run, WithRows, Visited, Happened;
    ghost var start := store.Now();
    store.OthersAct();
    OthersAttemptNothing(start, store.rows);
    ghost var (now, at) := (store.Now(), |store.history|);
    credentials, result := loaded, None;
    var got := GetCredential(loaded, order.row.intent.userId, loads);
    credentials := got.GetOr(loaded);
    if got.Some? && f.Fetched? {
      result, visit := UpdateOrder(store, order, f, loads);
    } else {
      visit := Visit(at, at, store.rows, store.rows, store.events, store.events, false, None);
      NoVisit(store, order, f, loads, at);
    }
    HappenedEarlier(store.SoFar(), |old(store.history)|, at, [visit]);
  }

  /** The order's update, given what was fetched. */
  method UpdateOrder(store: OrderStore, order: Found, f: Fetched, loads: string -> bool)
    returns (result: Option<bool>, ghost visit: Visit)
    requires store.Valid() && store.Now().attempt.Idle? && order.orderId in store.rows && f.Fetched?
    requires loads(order.row.intent.userId)
    modifies store
    ensures store.Valid() && store.Grows() && SameAttempts(old(store.Now()), store.Now())
    ensures old(store.rows).Keys <= store.rows.Keys
    ensures visit.result == result && Visited(order, f, loads, visit)
    ensures Happened(store.SoFar(), |old(store.history)|, [visit]) && visit.stored == old(store.events)
  {
    hide Normalize, Changed, Run, Fresh, SubmitProcessor.Harmless, LastEvent, TradesUsed, Reconciled, WithRows,
        Confined, OnlyRows, Happened;
    ghost var past := store.SoFar();
    store.PastRows(|store.history|);
    result := ReconcileOrder(store, order.orderId, order.row, f.snapshot, TradesUsed(order.row, f));
    visit := Visit(|old(store.history)|, |store.history|, old(store.rows), store.rows, old(store.events), store.events,
        true, result);
    HarmlessKeepsIds(visit.before, visit.after, {order.orderId});
    ConfinedKeepsRows(visit.before, visit.after, order.orderId);
    store.PastRows(|store.history|);
    JustHappened(past, store.SoFar(), visit);
  }

  lemma HarmlessKeepsIds(rows: Rows, rows': Rows, ids: set<OrderId>)
    ensures SubmitProcessor.Harmless(rows, rows', ids) ==> KeepsExchangeIds(rows, rows')
  {
  }

  lemma ConfinedKeepsRows(rows: Rows, rows': Rows, id: OrderId)
    ensures Confined(rows, rows', id) ==> rows.Keys <= rows'.Keys
  {
  }

  lemma RowsOfStretch(past: Past, past': Past)
    requires Later(past, past')
    ensures RowsThen(past', |past.history|) == RowsThen(past, |past.history|)
  {
    hide Run;
    assert past'.history[..|past.history|] == past.history[..|past.history|];
  }

  lemma JustHappened(past: Past, past': Past, v: Visit)
    requires Later(past, past')
    requires RowsThen(past, |past.history|) == Some(v.before) && RowsThen(past', |past'.history|) == Some(v.after)
    requires v.from == |past.history| && v.to == |past'.history| && v.stored <= v.events <= past'.events
    requires v.result.None? ==> Interrupted(past.history, past'.history)
    ensures Happened(past', |past.history|, [v])
  {
    hide RowsThen;
    RowsOfStretch(past, past');
  }

  lemma NoVisit(store: OrderStore, order: Found, f: Fetched, loads: string -> bool, at: nat)
    requires !(f.Fetched? && loads(order.row.intent.userId))
    requires store.Valid() && order.orderId in store.rows && at == |store.history|
    ensures var v := Visit(at, at, store.rows, store.rows, store.events, store.events, false, None);
            Visited(order, f, loads, v) && Happened(store.SoFar(), at, [v])
  {
    hide Run;
    NothingConfined(store.rows, order.orderId);
    store.PastRows(at);
  }

  lemma OthersAttemptNothing(s: State, rows: Rows)
    ensures SameAttempts(s, WithRows(s, rows))
  {
  }

  /** The user of some order that was reconciled without error. */
  predicate IsReconciled(found: seq<Found>, results: seq<Option<bool>>, userId: string)
    requires |results| <= |found|
  {
    exists i :: 0 <= i < |results| && results[i].Some? && found[i].row.intent.userId == userId
  }

  ghost predicate ReconciledUsers(found: seq<Found>, results: seq<Option<bool>>, users: seq<string>) {
    |results| <= |found| && DistinctUsers(users) && forall user :: user in users <==> IsReconciled(found, results, user)
  }

  lemma HappenedStays(past: Past, past': Past, since: nat, visits: seq<Visit>)
    requires Happened(past, since, visits) && Later(past, past')
    ensures Happened(past', since, visits)
  {
    hide Run;
    forall n: nat | n <= |past.history|
      ensures past'.history[..n] == past.history[..n]
    {
    }
  }

  lemma HappenedNext(past: Past, since: nat, visits: seq<Visit>, at: nat, events: seq<Event>, v: Visit)
    requires Happened(past, since, visits) && Happened(past, at, [v]) && since <= at
    requires forall i :: 0 <= i < |visits| ==> visits[i].to <= at && visits[i].events <= events
    requires events <= v.stored
    ensures Happened(past, since, visits + [v])
  {
    hide RowsThen;
    assert [v][0] == v;
  }

  lemma UsersAfter(found: seq<Found>, results: seq<Option<bool>>, result: Option<bool>, users: seq<string>,
                   users': seq<string>)
    requires ReconciledUsers(found, results, users) && |results| < |found|
    requires var user := found[|results|].row.intent.userId;
             users' == if result.None? || user in users then users else users + [user]
    ensures ReconciledUsers(found, results + [result], users')
  {
    var user := found[|results|].row.intent.userId;
    forall u
      ensures IsReconciled(found, results + [result], u) <==>
              IsReconciled(found, results, u) || (result.Some? && u == user)
    {
      if IsReconciled(found, results, u) {
        var i :| 0 <= i < |results| && results[i].Some? && found[i].row.intent.userId == u;
        assert (results + [result])[i].Some?;
      }
      assert (results + [result])[|results|] == result;
    }
  }

  /** No trades without an exchange id other than zero or without a positive executed quantity; else those fetched. */
  lemma TradesUsedMean(row: Row, f: Fetched)
    requires f.Fetched?
    ensures var id := if f.snapshot.orderId.Some? then f.snapshot.orderId else row.binanceOrderId;
            var executed := if f.snapshot.executedQty.Some? then f.snapshot.executedQty.value else row.executedQty;
            TradesUsed(row, f) ==
              if id.Some? && id.value != 0 && executed > 0.0 && f.trades.Some? then f.trades.value else []
  {
  }

  /** What the counters come to, accounts aside. */
  function Counted(results: seq<Option<bool>>): Summary {
    Summary(|results|, multiset(results)[Some(true)], multiset(results)[Some(true)], 0, multiset(results)[None])
  }

  lemma CountedNext(results: seq<Option<bool>>, result: Option<bool>)
    ensures var (s, t) := (Counted(results), Counted(results + [result]));
            && t.ordersChecked == s.ordersChecked + 1 && t.accountsPublished == s.accountsPublished
            && t.ordersUpdated == t.orderEventsCreated && s.ordersUpdated == s.orderEventsCreated
            && t.ordersUpdated == s.ordersUpdated + (if result == Some(true) then 1 else 0)
            && t.errors == s.errors + (if result.None? then 1 else 0)
  {
  }

  lemma VisitedNext(found: seq<Found>, fetch: OrderId -> Fetched, loads: string -> bool, visits: seq<Visit>, v: Visit)
    requires AllVisited(found, fetch, loads, visits) && |visits| < |found|
    requires Visited(found[|visits|], fetch(found[|visits|].orderId), loads, v)
    ensures AllVisited(found, fetch, loads, visits + [v]) && Results(visits + [v]) == Results(visits) + [v.result]
  {
    hide Visited;
  }

  /** The next order of the batch, after those that were visited. */
  method CheckNext(store: OrderStore, order: Found, f: Fetched, loads: string -> bool, loaded: set<string>,
                   ghost since: nat,
                   ghost visits: seq<Visit>)
    returns (result: Option<bool>, credentials: set<string>, ghost visit: Visit)
    requires store.Valid() && store.Now().attempt.Idle? && order.orderId in store.rows
    requires since <= |store.history| && Happened(store.SoFar(), since, visits)
    requires forall user :: user in loaded ==> loads(user)
    modifies store
    ensures store.Valid() && store.Grows() && SameAttempts(old(store.Now()), store.Now())
    ensures old(store.rows).Keys <= store.rows.Keys
    ensures visit.result == result && Visited(order, f, loads, visit)
    ensures Happened(store.SoFar(), since, visits + [visit])
    ensures forall user :: user in credentials ==> loads(user)
    ensures loaded <= credentials && (result.Some? ==> order.row.intent.userId in credentials)
  {
    hide Run, Visited, Happened, SameAttempts;
    HappenedBefore(store.SoFar(), since, visits);
    ghost var past := store.SoFar();
    result, credentials, visit := CheckOrder(store, order, f, loads, loaded);
    GrewLater(past, store.SoFar());
    HappenedStays(past, store.SoFar(), since, visits);
    HappenedNext(store.SoFar(), since, visits, |past.history|, past.events, visit);
  }

  /** The loop over the batch. */
  method CheckAll(store: OrderStore, orders: seq<Found>, fetch: OrderId -> Fetched, loads: string -> bool)
    returns (summary: Summary, users: seq<string>, credentials: set<string>, ghost visits: seq<Visit>)
    requires store.Valid() && store.Now().attempt.Idle?
    requires forall i :: 0 <= i < |orders| ==> orders[i].orderId in store.rows
    modifies store
    ensures store.Valid() && store.Grows() && SameAttempts(old(store.Now()), store.Now())
    ensures |visits| == |orders| && AllVisited(orders, fetch, loads, visits)
    ensures Happened(store.SoFar(), |old(store.history)|, visits)
    ensures ReconciledUsers(orders, Results(visits), users) && forall k :: 0 <= k < |users| ==> users[k] in credentials
    ensures summary == Counted(Results(visits))
  {
    hide AllVisited, Results, Counted;
    hide Visited, Run, Happened, ReconciledUsers, SameAttempts;
    summary, users, credentials, visits := Summary(0, 0, 0, 0, 0), [], {}, [];
    NothingVisited(store.SoFar(), orders, fetch, loads);
    AttemptsStay(store.Now());
    for k := 0 to |orders|
      invariant store.Valid() && store.Grows() && store.Now().attempt.Idle?
      invariant SameAttempts(old(store.Now()), store.Now()) && old(store.rows).Keys <= store.rows.Keys
      invariant |visits| == k && AllVisited(orders, fetch, loads, visits)
      invariant Happened(store.SoFar(), |old(store.history)|, visits) && |old(store.history)| <= |store.history|
      invariant ReconciledUsers(orders, Results(visits), users)
      invariant forall i :: 0 <= i < |users| ==> users[i] in credentials
      invariant forall user :: user in credentials ==> loads(user)
      invariant summary == Counted(Results(visits))
    {
      ghost var now := store.Now();
      summary := summary.(ordersChecked := summary.ordersChecked + 1);
      var result;
      ghost var visit;
      result, credentials, visit := CheckNext(store, orders[k], fetch(orders[k].orderId), loads, credentials,
          |old(store.history)|, visits);
      AttemptsCompose(old(store.Now()), now, store.Now());
      var user := orders[k].row.intent.userId;
      ghost var known := users;
      if result.Some? && user !in users {
        users := users + [user];
      }
      UsersAfter(orders, Results(visits), result, known, users);
      CountedNext(Results(visits), result);
      VisitedNext(orders, fetch, loads, visits, visit);
      visits := visits + [visit];
      if result == Some(true) {
        summary := summary.(ordersUpdated := summary.ordersUpdated + 1,
            orderEventsCreated := summary.orderEventsCreated + 1);
      } else if result.None? {
        summary := summary.(errors := summary.errors + 1);
      }
    }
  }

  lemma NothingVisited(past: Past, found: seq<Found>, fetch: OrderId -> Fetched, loads: string -> bool)
    ensures Happened(past, |past.history|, []) && ReconciledUsers(found, Results([]), [])
    ensures AllVisited(found, fetch, loads, []) && Counted(Results([])) == Summary(0, 0, 0, 0, 0)
  {
  }

  lemma HappenedBefore(past: Past, since: nat, visits: seq<Visit>)
    requires Happened(past, since, visits)
    ensures forall i :: 0 <= i < |visits| ==> visits[i].to <= |past.history| && visits[i].events <= past.events
  {
  }

  lemma AttemptsStay(s: State)
    ensures SameAttempts(s, s)
  {
  }

  lemma AttemptsCompose(s: State, t: State, u: State)
    requires SameAttempts(s, t) && SameAttempts(t, u)
    ensures SameAttempts(s, u) && u.attempt == s.attempt == t.attempt
  {
  }

  /**
    `runReconciliationCycle`. Others may write at any time; every order of the batch is visited once,
    in turn, and every user of an order without error gets one snapshot. The counters say how often
    which of this happened. Without a summary the batch could not be read, and nothing has been done.
   */
  method RunReconciliationCycle(store: OrderStore, channel: BalanceChannel, batchSize: int,
                                fetch: OrderId -> Fetched, loads: string -> bool, accounts: Option<Accounts>)
    returns (r: Result<Summary>, ghost found: seq<Found>, ghost visits: seq<Visit>, ghost users: seq<string>,
             ghost outcomes: seq<bool>)
    requires store.Valid() && store.Now().attempt.Idle?
    modifies store, channel
    ensures store.Valid() && store.Grows() && SameAttempts(old(store.Now()), store.Now())
    ensures r.Err? ==>
              && store.rows == old(store.rows) && store.events == old(store.events)
              && store.published == old(store.published) && channel.messages == old(channel.messages)
    ensures r.Ok? ==>
              && IsBatch(found, old(store.rows), batchSize)
              && |visits| == |found| && AllVisited(found, fetch, loads, visits)
              && Happened(store.SoFar(), |old(store.history)|, visits)
              && ReconciledUsers(found, Results(visits), users)
    ensures r.Ok? && accounts.None? ==> outcomes == [] && channel.messages == old(channel.messages)
    ensures r.Ok? && accounts.Some? ==>
              && |outcomes| == |users| && old(channel.messages) <= channel.messages
              && AccountsSent(channel.messages[|old(channel.messages)|..], users, outcomes, accounts.value)
    ensures r.Ok? ==>
              var results := multiset(Results(visits));
              r.value == Summary(|found|, results[Some(true)], results[Some(true)], multiset(outcomes)[true],
                  results[None] + multiset(outcomes)[false])
  {
    hide Run, Happened, ReconciledUsers, SameAttempts, AllVisited, AccountsSent;
    found, visits, users, outcomes := [], [], [], [];
    ghost var start := store.Now();
    var query := FindStaleOrders(store, batchSize);
    SameRows(start, store.Now());
    if query.Err? {
      return Err(query.error), [], [], [], [];
    }
    found := query.value;
    BatchIsStored(found, store.rows, batchSize);
    ghost var (at, now) := (|store.history|, store.Now());
    var summary, reconciled, credentials;
    summary, reconciled, credentials, visits := CheckAll(store, query.value, fetch, loads);
    AttemptsCompose(start, now, store.Now());
    HappenedEarlier(store.SoFar(), |old(store.history)|, at, visits);
    users := reconciled;
    if accounts.Some? {
      UsersAreDistinct(found, Results(visits), reconciled);
      var published, errors;
      published, errors, outcomes := PublishAccounts(channel, reconciled, credentials, loads, accounts.value);
      summary := summary.(accountsPublished := published, errors := summary.errors + errors);
    }
    r := Ok(summary);
  }

  lemma SameRows(s: State, t: State)
    requires OnlyRows(s, t)
    ensures SameAttempts(s, t)
  {
  }

  lemma BatchIsStored(found: seq<Found>, rows: Rows, batchSize: int)
    requires IsBatch(found, rows, batchSize)
    ensures forall i :: 0 <= i < |found| ==> found[i].orderId in rows
  {
  }

  lemma HappenedEarlier(past: Past, since: nat, at: nat, visits: seq<Visit>)
    requires since <= at && Happened(past, at, visits)
    ensures Happened(past, since, visits)
  {
  }

  lemma UsersAreDistinct(found: seq<Found>, results: seq<Option<bool>>, users: seq<string>)
    requires ReconciledUsers(found, results, users)
    ensures DistinctUsers(users)
  {
  }
}
