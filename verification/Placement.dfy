/**
  How often an order is placed. The steps are the awaited calls of one submit attempt and whatever
  else may write order rows in between; an attempt can be interrupted before any of its calls.
  Attempts are serial, and any order may be attempted any number of times: redelivered entries,
  duplicate entries and restarts are all attempts.
 */
module Placement {
  import opened Wrappers
  import opened Orders

  /**
    The attempt under way: none, past its check for an earlier submission, or accepted by the
    exchange but not saved.
   */
  datatype Attempt = Idle | Decided(order: Order) | Accepted(order: Order)

  /**
    `placed` lists acceptances by the exchange, `lost` those whose attempt ended before saving the
    exchange id, `saved` the orders whose saved id is still stored, and `forgotten` those whose saved
    id another writer has erased, once per erasure.
   */
  datatype State = State(
    rows: Rows, attempt: Attempt, placed: seq<OrderId>, saved: set<OrderId>, lost: seq<OrderId>,
        forgotten: multiset<OrderId>)

  datatype Step =
    | Start(order: Order)
    | MarkPending
    | Reject(reason: string)
    | Accept
    | AcceptUnheard
    | Save(exchangeId: int, reply: Reply)
    | Interrupt
    | Background(rows: Rows)

  /** Other writers may do anything at any time. */
  predicate Enabled(s: State, step: Step) {
    match step
    case Start(_) => s.attempt.Idle?
    case MarkPending => s.attempt.Decided?
    case Reject(_) => s.attempt.Decided?
    case Accept => s.attempt.Decided?
    case AcceptUnheard => s.attempt.Decided?
    case Save(_, _) => s.attempt.Accepted?
    case Interrupt => true
    case Background(_) => true
  }

  predicate HasExchangeId(rows: Rows, id: OrderId) {
    id in rows && rows[id].binanceOrderId.Some?
  }

  /** The saved ids that rows no longer show. */
  function Dropped(saved: set<OrderId>, rows: Rows): set<OrderId> {
    set id | id in saved && !HasExchangeId(rows, id)
  }

  function WithRows(s: State, rows: Rows): State {
    var dropped := Dropped(s.saved, rows);
    s.(rows := rows, saved := s.saved - dropped, forgotten := s.forgotten + multiset(dropped))
  }

  function Apply(s: State, step: Step): State
    requires Enabled(s, step)
  {
    match step
    case Start(order) =>
      if AlreadySubmitted(RowAt(s.rows, order.orderId)) then s else s.(attempt := Decided(order))
    case MarkPending =>
      s.(rows := s.rows[s.attempt.order.orderId := PendingRow(s.rows, s.attempt.order)])
    case Reject(reason) =>
      s.(rows := s.rows[s.attempt.order.orderId := RejectedRow(s.rows, s.attempt.order, reason)], attempt := Idle)
    case Accept =>
      s.(attempt := Accepted(s.attempt.order), placed := s.placed + [s.attempt.order.orderId])
    case AcceptUnheard =>
      s.(placed := s.placed + [s.attempt.order.orderId], lost := s.lost + [s.attempt.order.orderId])
    case Save(exchangeId, reply) =>
      s.(rows := s.rows[s.attempt.order.orderId := SubmittedRow(s.rows, s.attempt.order, exchangeId, reply)],
         attempt := Idle, saved := s.saved + {s.attempt.order.orderId})
    case Interrupt =>
      s.(attempt := Idle, lost := if s.attempt.Accepted? then s.lost + [s.attempt.order.orderId] else s.lost)
    case Background(rows) => WithRows(s, rows)
  }

  function Run(s: State, steps: seq<Step>): Option<State> {
    if steps == [] then Some(s)
    else
      var before := Run(s, steps[..|steps| - 1]);
      if before.Some? && Enabled(before.value, steps[|steps| - 1])
      then Some(Apply(before.value, steps[|steps| - 1])) else None
  }

  lemma RunExtends(s: State, steps: seq<Step>, step: Step)
    requires Run(s, steps).Some? && Enabled(Run(s, steps).value, step)
    ensures Run(s, steps + [step]) == Some(Apply(Run(s, steps).value, step))
  {
    hide Apply, Enabled;
    assert (steps + [step])[..|steps|] == steps;
  }

  lemma {:induction false} RunHasPrefix(s: State, steps: seq<Step>, n: nat)
    requires n <= |steps| && Run(s, steps).Some?
    ensures Run(s, steps[..n]).Some?
  {
    if n < |steps| {
      RunHasPrefix(s, steps[..|steps| - 1], n);
      assert steps[..|steps| - 1][..n] == steps[..n];
    } else {
      assert steps[..n] == steps;
    }
  }

  /** Nothing placed yet; whatever rows there are, there are. */
  function Fresh(rows: Rows): State {
    State(rows, Idle, [], {}, [], multiset{})
  }

  function Count(ids: seq<OrderId>, id: OrderId): nat {
    multiset(ids)[id]
  }

  function InFlight(attempt: Attempt, id: OrderId): nat {
    if attempt.Accepted? && attempt.order.orderId == id then 1 else 0
  }

  /**
    Every acceptance was lost, forgotten, is saved, or is about to be saved; what is saved is visible
    and not attempted again.
   */
  ghost predicate Accounted(s: State) {
    && (forall id :: Count(s.placed, id) ==
          Count(s.lost, id) + s.forgotten[id] + (if id in s.saved then 1 else 0) + InFlight(s.attempt, id))
    && (forall id :: id in s.saved ==> HasExchangeId(s.rows, id))
    && (!s.attempt.Idle? ==> s.attempt.order.orderId !in s.saved)
  }

  lemma CountOfAppend(ids: seq<OrderId>, more: OrderId, id: OrderId)
    ensures Count(ids + [more], id) == Count(ids, id) + if more == id then 1 else 0
  {
  }

  lemma StepKeepsAccounts(s: State, step: Step)
    requires Accounted(s) && Enabled(s, step)
    ensures Accounted(Apply(s, step))
  {
    hide Count, PendingRow, RejectedRow, SubmittedRow;
    if !s.attempt.Idle? {
      var order := s.attempt.order.orderId;
      forall id
        ensures Count(s.placed + [order], id) == Count(s.placed, id) + (if order == id then 1 else 0)
        ensures Count(s.lost + [order], id) == Count(s.lost, id) + (if order == id then 1 else 0)
      {
        CountOfAppend(s.placed, order, id);
        CountOfAppend(s.lost, order, id);
      }
    }
    if !step.Background? {
      WritesKeepIds(s, step);
    }
  }

  /** No step of an attempt drops an exchange id. */
  lemma WritesKeepIds(s: State, step: Step)
    requires Enabled(s, step) && !step.Background?
    ensures KeepsExchangeIds(s.rows, Apply(s, step).rows)
    ensures step.Save? ==> HasExchangeId(Apply(s, step).rows, s.attempt.order.orderId)
  {
    hide NormalizeOrderStatus, OptionalText, Divide;
  }

  lemma {:induction false} RunsKeepAccounts(s: State, steps: seq<Step>)
    requires Accounted(s) && Run(s, steps).Some?
    ensures Accounted(Run(s, steps).value)
  {
    if steps != [] {
      hide Accounted, Apply, Enabled;
      var n := |steps| - 1;
      RunsKeepAccounts(s, steps[..n]);
      StepKeepsAccounts(Run(s, steps[..n]).value, steps[n]);
    }
  }

  /**
    In every run, whatever other writers do, an order is accepted at most once more than its attempts
    were cut off before saving and its saved id was erased.
   */
  lemma PlacedAtMostOncePlusLost(rows: Rows, steps: seq<Step>, id: OrderId)
    requires Run(Fresh(rows), steps).Some?
    ensures var s := Run(Fresh(rows), steps).value;
            Count(s.placed, id) <= 1 + Count(s.lost, id) + s.forgotten[id]
  {
    RunsKeepAccounts(Fresh(rows), steps);
  }

  predicate FaultFree(steps: seq<Step>) {
    forall i :: 0 <= i < |steps| ==> !steps[i].Interrupt? && !steps[i].AcceptUnheard?
  }

  /** At every point of the run the other writers keep the order's exchange id, if there is one. */
  predicate KeptByOthers(s: State, steps: seq<Step>, id: OrderId)
    requires Run(s, steps).Some?
  {
    steps != [] ==>
      var n := |steps| - 1;
      && KeptByOthers(s, steps[..n], id)
      && (steps[n].Background? && HasExchangeId(Run(s, steps[..n]).value.rows, id) ==> HasExchangeId(steps[n].rows, id))
  }

  /** Writers that keep the id make nothing forgotten. */
  lemma {:induction false} KeptIsNotForgotten(s: State, steps: seq<Step>, id: OrderId)
    requires Accounted(s) && Run(s, steps).Some? && KeptByOthers(s, steps, id)
    ensures Run(s, steps).value.forgotten[id] == s.forgotten[id]
  {
    if steps != [] {
      var n := |steps| - 1;
      KeptIsNotForgotten(s, steps[..n], id);
      RunsKeepAccounts(s, steps[..n]);
      hide Run, Accounted, KeptByOthers, Apply, Enabled;
      StepForgets(Run(s, steps[..n]).value, steps[n], id);
    }
  }

  lemma StepForgets(s: State, step: Step, id: OrderId)
    requires Accounted(s) && Enabled(s, step)
    requires step.Background? && HasExchangeId(s.rows, id) ==> HasExchangeId(step.rows, id)
    ensures Apply(s, step).forgotten[id] == s.forgotten[id]
  {
    hide Count, PendingRow, RejectedRow, SubmittedRow;
  }

  lemma {:induction false} FaultFreeLosesNothing(s: State, steps: seq<Step>)
    requires FaultFree(steps) && Run(s, steps).Some?
    ensures Run(s, steps).value.lost == s.lost
  {
    if steps != [] {
      FaultFreeLosesNothing(s, steps[..|steps| - 1]);
    }
  }

  /** Without faults an order whose id others keep is placed at most once, however often its command arrives. */
  lemma FaultFreePlacesOnce(rows: Rows, steps: seq<Step>, id: OrderId)
    requires FaultFree(steps) && Run(Fresh(rows), steps).Some? && KeptByOthers(Fresh(rows), steps, id)
    ensures Count(Run(Fresh(rows), steps).value.placed, id) <= 1
  {
    FaultFreeLosesNothing(Fresh(rows), steps);
    KeptIsNotForgotten(Fresh(rows), steps, id);
    PlacedAtMostOncePlusLost(rows, steps, id);
  }

  /** An order whose exchange id is recorded, and kept by others, is not placed by any later run. */
  lemma {:induction false} RecordedIsNotPlaced(s: State, steps: seq<Step>, id: OrderId)
    requires s.attempt.Idle? && HasExchangeId(s.rows, id) && Run(s, steps).Some? && KeptByOthers(s, steps, id)
    ensures var t := Run(s, steps).value;
            && Count(t.placed, id) == Count(s.placed, id)
            && HasExchangeId(t.rows, id)
            && (!t.attempt.Idle? ==> t.attempt.order.orderId != id)
  {
    if steps != [] {
      var n := |steps| - 1;
      RecordedIsNotPlaced(s, steps[..n], id);
      var before := Run(s, steps[..n]).value;
      if !steps[n].Background? {
        WritesKeepIds(before, steps[n]);
      }
      hide Count, PendingRow, RejectedRow, SubmittedRow;
      if !before.attempt.Idle? {
        CountOfAppend(before.placed, before.attempt.order.orderId, id);
      }
    }
  }
}
