/**
  Reconciling stored orders with the exchange: what a snapshot and its trades make of a row, when
  that counts as a change, and the cycle over the open orders.
 */
module Reconciliation {
  import opened Wrappers
  import opened Text
  import opened Orders
  import opened Placement
  import opened Store
  import opened SubmitProcessor
  import opened CancelProcessor

  datatype Trade = Trade(qty: Option<real>, price: Option<real>, time: int)

  /** The exchange's view of a row; the event quantity is not stored. */
  datatype Normalized = Normalized(
    status: Status, rawStatus: Option<string>, binanceOrderId: Option<int>, executedQty: real,
        cummulativeQuoteQty: real,
    avgFillPrice: Option<real>, lastTradeQty: Option<real>, lastTradePrice: Option<real>, eventQuantity: real)

  // ---------- normalising ----------

  /** `mapBinanceOrderStatusToLocal`: upper-cased but not trimmed; everything unknown counts as submitted. */
  function MapStatus(text: string): Status {
    var token := Upper(text);
    if token == "PARTIALLY_FILLED" then PartiallyFilled
    else if token == "FILLED" then Filled
    else if token == "CANCELED" then Canceled
    else if token == "EXPIRED" then Expired
    else if token == "REJECTED" then Rejected
    else Submitted
  }

  predicate NonEmpty(text: Option<string>) {
    text.Some? && text.value != ""
  }

  /** The first text that is not empty: the snapshot's status, the stored raw status, the stored status. */
  function StatusSource(row: Row, snapshot: Reply): string {
    if NonEmpty(snapshot.status) then snapshot.status.value
    else if NonEmpty(row.rawStatus) then row.rawStatus.value
    else StatusText(row.status)
  }

  /** `latestTrade`: the first of the trades with the largest time. */
  function LatestTrade(trades: seq<Trade>): (latest: Option<Trade>)
    ensures latest.Some? <==> trades != []
    ensures latest.Some? ==> latest.value in trades && forall t :: t in trades ==> t.time <= latest.value.time
  {
    if trades == [] then None
    else
      var (last, before) := (trades[|trades| - 1], LatestTrade(trades[..|trades| - 1]));
      assert trades == trades[..|trades| - 1] + [last];
      if before.None? || before.value.time < last.time then Some(last) else before
  }

  function Normalize(row: Row, snapshot: Reply, trades: seq<Trade>): Normalized {
    var executedQty := snapshot.executedQty.GetOr(row.executedQty);
    var quote := OrElse(snapshot.cummulativeQuoteQty, row.cummulativeQuoteQty).GetOr(0.0);
    var latest := LatestTrade(trades);
    Normalized(
      MapStatus(StatusSource(row, snapshot)),
      OrElse(OptionalText(snapshot.status), OptionalText(row.rawStatus)),
      OrElse(snapshot.orderId, row.binanceOrderId),
      executedQty, quote,
      OrElse(Divide(Some(quote), Some(executedQty)), row.avgFillPrice),
      OrElse(if latest.Some? then latest.value.qty else None, row.lastTradeQty),
      OrElse(if latest.Some? then latest.value.price else None, row.lastTradePrice),
      if executedQty > 0.0 then executedQty else row.intent.quantity.GetOr(0.0))
  }

  /** `hasMaterialOrderChange`: empty and missing texts are the same, and so are a zero and a missing exchange id. */
  predicate Changed(row: Row, n: Normalized) {
    || row.status != n.status
    || row.rawStatus.GetOr("") != n.rawStatus.GetOr("")
    || row.binanceOrderId.GetOr(0) != n.binanceOrderId.GetOr(0)
    || row.executedQty != n.executedQty
    || row.cummulativeQuoteQty != Some(n.cummulativeQuoteQty)
    || row.avgFillPrice != n.avgFillPrice
    || row.lastTradeQty != n.lastTradeQty
    || row.lastTradePrice != n.lastTradePrice
  }

  function Reconciled(row: Row, n: Normalized): Row {
    row.(status := n.status, rawStatus := n.rawStatus, binanceOrderId := n.binanceOrderId, executedQty := n.executedQty,
         cummulativeQuoteQty := Some(n.cummulativeQuoteQty), avgFillPrice := n.avgFillPrice,
         lastTradeQty := n.lastTradeQty, lastTradePrice := n.lastTradePrice, errorMsg := None)
  }

  /** The row after reconciling it once. */
  function After(row: Row, snapshot: Reply, trades: seq<Trade>): Row {
    var n := Normalize(row, snapshot, trades);
    if Changed(row, n) then Reconciled(row, n) else row
  }

  predicate ChangesAgain(row: Row, snapshot: Reply, trades: seq<Trade>) {
    var once := After(row, snapshot, trades);
    Changed(once, Normalize(once, snapshot, trades))
  }

  // ---------- convergence ----------

  /**
    The rows that need a second pass: the snapshot gives no status, and the stored raw status has
    white space around a status other than the default. The first pass reads it untrimmed and takes
    it for unknown, but stores it trimmed.
   */
  predicate NeedsSecondPass(row: Row, snapshot: Reply) {
    && !NonEmpty(snapshot.status) && row.rawStatus.Some?
    && Trim(row.rawStatus.value) != row.rawStatus.value
    && Trim(row.rawStatus.value) != ""
    && MapStatus(Trim(row.rawStatus.value)) != Submitted
  }

  lemma UntrimmedIsUnknown(text: string)
    requires Trim(text) != text
    ensures MapStatus(text) == Submitted
  {
    TrimIsProjection(text);
    UpperIsProjection(text);
    hide Trim, Upper;
  }

  lemma UpperTextStays(s: string)
    requires forall i :: 0 <= i < |s| ==> !('a' <= s[i] <= 'z')
    ensures Upper(s) == s
  {
    assert forall i :: 0 <= i < |s| ==> Upper(s)[i] == s[i];
  }

  lemma {:induction false} StatusTextIsUpper(status: Status)
    ensures Upper(StatusText(status)) == StatusText(status) && StatusText(status) != ""
  {
    UpperTextStays(StatusText(status));
    hide Upper;
  }

  /** A status the map yields is mapped to itself. */
  lemma {:induction false} MappedIsStable(text: string)
    ensures MapStatus(StatusText(MapStatus(text))) == MapStatus(text)
  {
    StatusTextIsUpper(MapStatus(text));
    hide Upper;
  }

  /** Everything but the status and its text is settled by the first pass. */
  predicate AmountsSettled(row: Row, n: Normalized) {
    && row.binanceOrderId.GetOr(0) == n.binanceOrderId.GetOr(0) && row.executedQty == n.executedQty
    && row.cummulativeQuoteQty == Some(n.cummulativeQuoteQty) && row.avgFillPrice == n.avgFillPrice
    && row.lastTradeQty == n.lastTradeQty && row.lastTradePrice == n.lastTradePrice
  }

  lemma AmountsSettle(row: Row, snapshot: Reply, trades: seq<Trade>)
    ensures var once := Reconciled(row, Normalize(row, snapshot, trades));
            AmountsSettled(once, Normalize(once, snapshot, trades))
  {
    hide MapStatus, StatusSource, OptionalText, Quotient, LatestTrade;
  }

  lemma RawStatusSettles(row: Row, snapshot: Reply, trades: seq<Trade>)
    ensures var once := Reconciled(row, Normalize(row, snapshot, trades));
            Normalize(once, snapshot, trades).rawStatus == once.rawStatus
  {
    hide MapStatus, StatusSource, Divide, LatestTrade, Trim;
    if row.rawStatus.Some? {
      TrimIsProjection(row.rawStatus.value);
    }
    if snapshot.status.Some? {
      TrimIsProjection(snapshot.status.value);
    }
  }

  lemma {:induction false} StatusSettles(row: Row, snapshot: Reply, trades: seq<Trade>)
    ensures var once := Reconciled(row, Normalize(row, snapshot, trades));
            Normalize(once, snapshot, trades).status == once.status <==> !NeedsSecondPass(row, snapshot)
  {
    hide MapStatus, Divide, LatestTrade, Trim, StatusText;
    var once := Reconciled(row, Normalize(row, snapshot, trades));
    MappedIsStable(StatusSource(row, snapshot));
    StatusTextIsUpper(once.status);
    if !NonEmpty(snapshot.status) && NonEmpty(row.rawStatus) {
      var text := row.rawStatus.value;
      assert snapshot.status.Some? ==> OptionalText(snapshot.status).None? by {
        EmptyTrims();
      }
      if Trim(text) != text {
        UntrimmedIsUnknown(text);
      }
      DefaultIsStable();
    } else if !NonEmpty(snapshot.status) {
      EmptyTrims();
    }
  }

  lemma EmptyTrims()
    ensures Trim("") == ""
  {
  }

  lemma DefaultIsStable()
    ensures MapStatus(StatusText(Submitted)) == Submitted
  {
    StatusTextIsUpper(Submitted);
    hide Upper;
  }

  /**
    Reconciling again with the same snapshot and trades makes no change, except for exactly the rows
    that need a second pass.
   */
  lemma {:induction false} SecondReconcileChangesNothing(row: Row, snapshot: Reply, trades: seq<Trade>)
    ensures ChangesAgain(row, snapshot, trades) <==> NeedsSecondPass(row, snapshot)
  {
    hide Normalize, NeedsSecondPass;
    var n := Normalize(row, snapshot, trades);
    if Changed(row, n) {
      AmountsSettle(row, snapshot, trades);
      RawStatusSettles(row, snapshot, trades);
      StatusSettles(row, snapshot, trades);
    } else {
      UnchangedNeedsNoPass(row, snapshot, trades);
    }
  }

  lemma {:induction false} UnchangedNeedsNoPass(row: Row, snapshot: Reply, trades: seq<Trade>)
    requires !Changed(row, Normalize(row, snapshot, trades))
    ensures !NeedsSecondPass(row, snapshot)
  {
    hide MapStatus, Divide, LatestTrade, Trim, StatusSource;
    EmptyTrims();
  }

  /** The second pass, where one is needed, is the last. */
  lemma {:induction false} TwoPassesSuffice(row: Row, snapshot: Reply, trades: seq<Trade>)
    ensures !ChangesAgain(After(row, snapshot, trades), snapshot, trades)
  {
    var once := After(row, snapshot, trades);
    SecondReconcileChangesNothing(row, snapshot, trades);
    SecondReconcileChangesNothing(once, snapshot, trades);
    hide Divide, LatestTrade, MapStatus, Trim, StatusSource, ChangesAgain;
    if once.rawStatus.Some? && Changed(row, Normalize(row, snapshot, trades)) {
      StoredRawStatusIsTrimmed(row, snapshot, trades);
    } else if once == row {
      UnchangedOrNot(row, snapshot, trades);
    }
  }

  lemma {:induction false} StoredRawStatusIsTrimmed(row: Row, snapshot: Reply, trades: seq<Trade>)
    ensures var raw := Normalize(row, snapshot, trades).rawStatus;
            raw.Some? ==> Trim(raw.value) == raw.value
  {
    hide MapStatus, Divide, LatestTrade, Trim, StatusSource;
    if row.rawStatus.Some? {
      TrimIsProjection(row.rawStatus.value);
    }
    if snapshot.status.Some? {
      TrimIsProjection(snapshot.status.value);
    }
  }

  lemma {:induction false} UnchangedOrNot(row: Row, snapshot: Reply, trades: seq<Trade>)
    requires After(row, snapshot, trades) == row
    ensures !NeedsSecondPass(row, snapshot)
  {
    hide Divide, LatestTrade, MapStatus, Trim, StatusSource, StatusText;
    EmptyTrims();
    if Changed(row, Normalize(row, snapshot, trades)) {
      StoredRawStatusIsTrimmed(row, snapshot, trades);
    }
  }

  lemma FilledIsPlain()
    ensures Trim(StatusText(Filled)) == StatusText(Filled) && MapStatus(StatusText(Filled)) == Filled
  {
    NothingToTrim(StatusText(Filled));
    StatusTextIsUpper(Filled);
    hide Upper, Trim;
  }

  /** What such a row goes through: submitted after the first pass, its own status only after the second. */
  lemma {:induction false} SecondPassCorrectsStatus(row: Row, snapshot: Reply, trades: seq<Trade>)
    requires NeedsSecondPass(row, snapshot)
    ensures var once := After(row, snapshot, trades);
            && once.status == Submitted && once.rawStatus == Some(Trim(row.rawStatus.value))
            && Normalize(once, snapshot, trades).status == MapStatus(Trim(row.rawStatus.value))
  {
    UntrimmedIsUnknown(row.rawStatus.value);
    EmptyTrims();
    hide Divide, LatestTrade, Trim, MapStatus, StatusText;
  }

  /** Such rows exist: a filled status stored with a space before it, for one. */
  lemma {:induction false} PaddedStatusNeedsTwoPasses(row: Row, snapshot: Reply)
    requires row.rawStatus == Some(" " + StatusText(Filled)) && snapshot.status.None?
    ensures NeedsSecondPass(row, snapshot)
  {
    hide Trim, Upper, MapStatus, StatusText;
    StatusTextIsUpper(Filled);
    FilledIsPlain();
    LeadingSpace(StatusText(Filled));
  }

  // ---------- the rows the services store ----------

  /** A stored raw status has no white space around it. */
  predicate RawTrimmed(row: Row) {
    row.rawStatus.Some? ==> Trim(row.rawStatus.value) == row.rawStatus.value
  }

  ghost predicate AllRawTrimmed(rows: Rows) {
    forall id :: id in rows ==> RawTrimmed(rows[id])
  }

  lemma StatusTextIsTrimmed(status: Status)
    ensures Trim(StatusText(status)) == StatusText(status)
  {
    hide Trim;
    var text := StatusText(status);
    assert text != [] && !IsSpace(text[0]) && !IsSpace(text[|text| - 1]);
    NothingToTrim(text);
  }

  lemma OptionalTextIsTrimmed(text: Option<string>)
    ensures OptionalText(text).Some? ==> Trim(OptionalText(text).value) == OptionalText(text).value
  {
    if text.Some? {
      TrimIsProjection(text.value);
    }
    hide Trim;
  }

  /** Every writer of a raw status trims it: submitting, settling a cancel, and reconciling. */
  lemma WritersTrim(rows: Rows, order: Order, exchangeId: int, reply: Reply, current: Row, existing: Row,
      trades: seq<Trade>)
    ensures RawTrimmed(SubmittedRow(rows, order, exchangeId, reply))
    ensures RawTrimmed(CanceledRow(current, existing, reply))
    ensures RawTrimmed(Reconciled(current, Normalize(existing, reply, trades)))
  {
    hide Trim, OptionalText, NormalizeOrderStatus, CancelStatus, StatusText, Divide, MapStatus, StatusSource,
        LatestTrade;
    OptionalTextIsTrimmed(reply.status);
    OptionalTextIsTrimmed(existing.rawStatus);
    StatusTextIsTrimmed(CancelStatus(reply));
  }

  /** No step of a submit attempt stores an untrimmed raw status, so it takes another kind of writer to do it. */
  lemma AttemptsKeepRawTrimmed(s: State, step: Step)
    requires Enabled(s, step) && AllRawTrimmed(s.rows) && (step.Background? ==> AllRawTrimmed(step.rows))
    ensures AllRawTrimmed(Apply(s, step).rows)
  {
    hide Trim, OptionalText, NormalizeOrderStatus, Divide;
    if step.Save? {
      var blank := NewRow(s.attempt.order.intent, Pending);
      WritersTrim(s.rows, s.attempt.order, step.exchangeId, step.reply, blank, blank, []);
      hide SubmittedRow;
    }
  }

  /** For every row these services store, one pass is enough. */
  lemma OnePassSuffices(row: Row, snapshot: Reply, trades: seq<Trade>)
    requires RawTrimmed(row)
    ensures !ChangesAgain(row, snapshot, trades)
  {
    hide ChangesAgain, Trim, MapStatus;
    SecondReconcileChangesNothing(row, snapshot, trades);
  }

  // ---------- what a reconciled row shows ----------

  /** Of the trades with the largest time the first one. */
  predicate IsLatest(trades: seq<Trade>, i: nat) {
    && i < |trades|
    && (forall j :: 0 <= j < |trades| ==> trades[j].time <= trades[i].time)
    && (forall j :: 0 <= j < i ==> trades[j].time < trades[i].time)
  }

  /** The status that a text names: one of five in any case, and submitted for all others. */
  predicate SpellsStatus(text: string, status: Status) {
    var name := Upper(text);
    && (status == PartiallyFilled <==> name == "PARTIALLY_FILLED")
    && (status == Filled <==> name == "FILLED")
    && (status == Canceled <==> name == "CANCELED")
    && (status == Expired <==> name == "EXPIRED")
    && (status == Rejected <==> name == "REJECTED")
    && (status == Submitted <==> name !in {"PARTIALLY_FILLED", "FILLED", "CANCELED", "EXPIRED", "REJECTED"})
  }

  /**
    The row shows what the exchange says: each part is the snapshot's where it has one, and the read
    row's otherwise; the average follows from the amounts, and the last trade is the latest one.
   */
  ghost predicate ShowsExchange(row: Row, read: Row, snapshot: Reply, trades: seq<Trade>) {
    && row.executedQty == (if snapshot.executedQty.Some? then snapshot.executedQty.value else read.executedQty)
    && row.cummulativeQuoteQty ==
         Some(if snapshot.cummulativeQuoteQty.Some? then snapshot.cummulativeQuoteQty.value
              else if read.cummulativeQuoteQty.Some? then read.cummulativeQuoteQty.value else 0.0)
    && row.avgFillPrice == (if row.executedQty > 0.0 && row.cummulativeQuoteQty.value > 0.0
                            then Some(row.cummulativeQuoteQty.value / row.executedQty) else read.avgFillPrice)
    && row.binanceOrderId.GetOr(0) ==
         (if snapshot.orderId.Some? then snapshot.orderId.value else read.binanceOrderId.GetOr(0))
    && row.rawStatus.GetOr("") ==
         (if Trim(snapshot.status.GetOr("")) != "" then Trim(snapshot.status.GetOr(""))
          else Trim(read.rawStatus.GetOr("")))
    && SpellsStatus(
         if snapshot.status.GetOr("") != "" then snapshot.status.value
         else if read.rawStatus.GetOr("") != "" then read.rawStatus.value
         else StatusText(read.status), row.status)
    && (trades == [] ==> row.lastTradeQty == read.lastTradeQty && row.lastTradePrice == read.lastTradePrice)
    && (forall i: nat :: IsLatest(trades, i) ==>
          && row.lastTradeQty == (if trades[i].qty.Some? then trades[i].qty else read.lastTradeQty)
          && row.lastTradePrice == (if trades[i].price.Some? then trades[i].price else read.lastTradePrice))
  }

  lemma {:induction false} LatestIsFirst(trades: seq<Trade>)
    ensures trades != [] ==> exists i: nat :: IsLatest(trades, i) && LatestTrade(trades) == Some(trades[i])
  {
    if trades != [] {
      var (n, fewer) := (|trades| - 1, trades[..|trades| - 1]);
      var last := LatestTrade(fewer);
      if last.None? || last.value.time < trades[n].time {
        assert IsLatest(trades, n) by {
          forall j | 0 <= j < n
            ensures trades[j].time < trades[n].time
          {
            assert fewer[j] in fewer;
          }
        }
      } else {
        LatestIsFirst(fewer);
        var i: nat :| IsLatest(fewer, i) && last == Some(fewer[i]);
        assert IsLatest(trades, i) by {
          forall j | 0 <= j < |trades|
            ensures trades[j].time <= trades[i].time && (j < i ==> trades[j].time < trades[i].time)
          {
            assert j < n ==> fewer[j] == trades[j];
          }
        }
      }
    }
  }

  lemma OneIsLatest(trades: seq<Trade>, i: nat, j: nat)
    requires IsLatest(trades, i) && IsLatest(trades, j)
    ensures i == j
  {
    assert trades[i].time <= trades[j].time <= trades[i].time;
  }

  lemma {:induction false} StatusIsSpelled(text: string)
    ensures forall status :: SpellsStatus(text, status) <==> status == MapStatus(text)
  {
    hide Upper;
  }

  lemma {:induction false} TradesShow(trades: seq<Trade>, i: nat)
    requires IsLatest(trades, i)
    ensures LatestTrade(trades) == Some(trades[i])
  {
    LatestIsFirst(trades);
    var j: nat :| IsLatest(trades, j) && LatestTrade(trades) == Some(trades[j]);
    OneIsLatest(trades, i, j);
  }

  /** Reconciling makes the row show what the exchange says, and is needed exactly if it does not yet. */
  lemma {:induction false} ReconciledShows(current: Row, row: Row, snapshot: Reply, trades: seq<Trade>)
    ensures var (n, once) := (Normalize(row, snapshot, trades), Reconciled(current, Normalize(row, snapshot, trades)));
            && ShowsExchange(once, row, snapshot, trades)
            && once.binanceOrderId == (if snapshot.orderId.Some? then snapshot.orderId else row.binanceOrderId)
            && once.intent == current.intent && once.errorMsg == None
            && once == current.(status := once.status, rawStatus := once.rawStatus,
                 binanceOrderId := once.binanceOrderId, executedQty := once.executedQty,
                 cummulativeQuoteQty := once.cummulativeQuoteQty, avgFillPrice := once.avgFillPrice,
                 lastTradeQty := once.lastTradeQty, lastTradePrice := once.lastTradePrice, errorMsg := None)
    ensures Changed(row, Normalize(row, snapshot, trades)) <==> !ShowsExchange(row, row, snapshot, trades)
  {
    EmptyStaysEmpty();
    StatusIsSpelled(StatusSource(row, snapshot));
    LatestIsFirst(trades);
    forall i: nat | IsLatest(trades, i)
      ensures LatestTrade(trades) == Some(trades[i])
    {
      TradesShow(trades, i);
    }
    hide IsLatest, LatestTrade, MapStatus, SpellsStatus, Trim, StatusText;
  }

  lemma QuantityShown(row: Row, snapshot: Reply, trades: seq<Trade>)
    ensures var n := Normalize(row, snapshot, trades);
            n.eventQuantity == if n.executedQty > 0.0 then n.executedQty
                               else if row.intent.quantity.Some? then row.intent.quantity.value else 0.0
  {
    hide MapStatus, StatusSource, LatestTrade, Divide, OptionalText;
  }

  // ---------- one order ----------

  function ReconcileEvent(id: OrderId, row: Row, n: Normalized): Event {
    Event(id, row.intent.userId, n.status, n.avgFillPrice, Some(n.eventQuantity))
  }

  function ReconcileMessage(id: OrderId, row: Row, n: Normalized): Message {
    Message(id, row.intent.userId, n.status, Some(n.eventQuantity), n.avgFillPrice, n.binanceOrderId, None)
  }

  lemma ReconciledKeeps(current: Row, row: Row, snapshot: Reply, trades: seq<Trade>)
    ensures var once := Reconciled(current, Normalize(row, snapshot, trades));
            once.intent == current.intent
                && (row.binanceOrderId.Some? || snapshot.orderId.Some? ==> once.binanceOrderId.Some?)
  {
    hide MapStatus, StatusSource, Divide, LatestTrade, OptionalText;
  }

  /**
    `reconcileOrder`: nothing at all without a change to the row as it was read; otherwise the stored
    row takes on what the snapshot and the row as read come to, with an event and a message. The
    stored row may have changed since; only then, and only if the snapshot names no exchange id, can
    it lose one.
   */
  method ReconcileOrder(store: OrderStore, id: OrderId, localOrder: Row, snapshot: Reply, trades: seq<Trade>)
    returns (updated: Option<bool>)
    requires store.Valid() && store.Now().attempt.Idle? && id in store.rows
    modifies store
    ensures store.Valid() && store.Grows() && SameAttempts(old(store.Now()), store.Now())
    ensures Confined(old(store.rows), store.rows, id)
    ensures localOrder.binanceOrderId.Some? || snapshot.orderId.Some? || old(store.rows)[id].binanceOrderId.None? ==>
              OnlyRows(old(store.Now()), store.Now()) && SubmitProcessor.Harmless(old(store.rows), store.rows, {id})
    ensures var n := Normalize(localOrder, snapshot, trades);
            updated.Some? ==>
              && updated.value == Changed(localOrder, n)
              && store.rows == (if updated.value then old(store.rows)[id :=
                  Reconciled(old(store.rows)[id], n)] else old(store.rows))
              && store.events == old(store.events) + (if updated.value then [ReconcileEvent(id, localOrder, n)] else [])
              && store.published == old(store.published) +
                  (if updated.value then [ReconcileMessage(id, localOrder, n)] else [])
              && (updated.value ==> EventMatchesRow(store.rows, store.events, id))
    ensures store.rows == old(store.rows) ||
            store.rows == old(store.rows)[id :=
                Reconciled(old(store.rows)[id], Normalize(localOrder, snapshot, trades))]
    ensures store.events == old(store.events) ||
            store.events == old(store.events) +
                [ReconcileEvent(id, localOrder, Normalize(localOrder, snapshot, trades))]
    ensures updated.Some? ==>
              && (updated.value <==> !ShowsExchange(localOrder, localOrder, snapshot, trades))
              && (!updated.value ==> store.rows == old(store.rows) && store.events == old(store.events) &&
                                     store.published == old(store.published))
    ensures updated == Some(true) ==>
              var (row, n, m) := (store.rows[id], |old(store.events)|, |old(store.published)|);
              var quantity := if row.executedQty > 0.0 then row.executedQty
                              else if localOrder.intent.quantity.Some? then localOrder.intent.quantity.value else 0.0;
              && ShowsExchange(row, localOrder, snapshot, trades) && row.errorMsg == None
              && row.intent == old(store.rows)[id].intent
              && row.binanceOrderId ==
                   (if snapshot.orderId.Some? then snapshot.orderId else localOrder.binanceOrderId)
              && store.events[n] ==
                   Event(id, localOrder.intent.userId, row.status, row.avgFillPrice, Some(quantity))
              && store.published[m] == Message(id, localOrder.intent.userId, row.status, Some(quantity),
                   row.avgFillPrice, row.binanceOrderId, None)
    ensures Interrupted(old(store.history), store.history) || updated.Some?
    ensures store.published != old(store.published) ==> EventMatchesRow(store.rows, store.events, id)
    ensures !Changed(localOrder, Normalize(localOrder, snapshot, trades)) ==> store.rows == old(store.rows)
  {
    hide Normalize, Changed, Run, Fresh, SubmitProcessor.Harmless, LastEvent, Divide, Confined, ShowsExchange;
    ReconciledShows(store.rows[id], localOrder, snapshot, trades);
    QuantityShown(localOrder, snapshot, trades);
    WritesNothing(store.rows, id);
    NothingConfined(store.rows, id);
    var n := Normalize(localOrder, snapshot, trades);
    if !Changed(localOrder, n) {
      return Some(false);
    }
    ReconciledKeeps(store.rows[id], localOrder, snapshot, trades);
    LastEventOfAppend(store.events, ReconcileEvent(id, localOrder, n), id);
    var done := Update(store, id, Reconciled(store.rows[id], n));
    if done {
      done := store.CreateEvent(ReconcileEvent(id, localOrder, n));
    }
    if done {
      done := store.Publish(ReconcileMessage(id, localOrder, n));
    }
    updated := if done then Some(true) else None;
  }

  lemma NothingConfined(rows: Rows, id: OrderId)
    ensures Confined(rows, rows, id)
  {
  }
}
