/**
  The database and the event channel as the execution service sees them: one method per awaited
  call. Any call may fail, with or without having taken effect, and a failed call ends the attempt
  that made it; a crash is a call that fails. The store carries the placement history that produced
  its rows, so everything proved about such histories holds of the store.
 */
module Store {
  import opened Wrappers
  import opened Orders
  import opened Placement

  /** A store's past: its history and all that was stored and published. */
  datatype Past = Past(initial: Rows, history: seq<Step>, events: seq<Event>, published: seq<Message>)

  /** The rows after the first n steps. */
  function RowsThen(past: Past, n: nat): Option<Rows> {
    if n > |past.history| then None
    else
      var s := Run(Fresh(past.initial), past.history[..n]);
      if s.None? then None else Some(s.value.rows)
  }

  predicate Later(past: Past, past': Past) {
    past'.initial == past.initial && past.history <= past'.history && past.events <= past'.events &&
    past.published <= past'.published
  }

  lemma GrewLater(past: Past, past': Past)
    requires past'.initial == past.initial && past.history <= past'.history && past.events <= past'.events
    requires past.published <= past'.published
    ensures Later(past, past')
  {
  }

  /** Some call failed between the two points of a history. */
  ghost predicate Interrupted(before: seq<Step>, after: seq<Step>) {
    exists i :: |before| <= i < |after| && after[i] == Interrupt
  }

  lemma InterruptedWithin(start: seq<Step>, before: seq<Step>, after: seq<Step>, end: seq<Step>)
    requires |start| <= |before| && after <= end && Interrupted(before, after)
    ensures Interrupted(start, end)
  {
    var i :| |before| <= i < |after| && after[i] == Interrupt;
    assert end[i] == Interrupt;
  }

  /** An interruption stays one. */
  lemma StillInterrupted(start: seq<Step>, before: seq<Step>, after: seq<Step>)
    requires start <= before <= after
    ensures Interrupted(start, before) || Interrupted(before, after) ==> Interrupted(start, after)
  {
    if Interrupted(start, before) {
      InterruptedWithin(start, start, before, after);
    }
    if Interrupted(before, after) {
      InterruptedWithin(start, before, after, after);
    }
  }

  class OrderStore {
    var rows: Rows
    var events: seq<Event>
    var published: seq<Message>
    ghost const initial: Rows
    ghost var history: seq<Step>

    ghost predicate Valid()
      reads this
    {
      Run(Fresh(initial), history).Some? && Run(Fresh(initial), history).value.rows == rows
    }

    ghost function Now(): State
      requires Valid()
      reads this
    {
      Run(Fresh(initial), history).value
    }

    constructor (stored: Rows)
      ensures Valid() && rows == stored && events == [] && published == [] && Now() == Fresh(stored)
    {
      rows, events, published := stored, [], [];
      initial, history := stored, [];
    }

    ghost function SoFar(): Past
      reads this
    {
      Past(initial, history, events, published)
    }

    /** The past is kept: steps, events and messages are only ever added. */
    twostate predicate Grows()
      reads this
    {
      old(history) <= history && old(events) <= events && old(published) <= published
    }

    /** The rows the store had after the first n steps of its history. */
    ghost function RowsAfter(n: nat): Rows
      requires Valid() && n <= |history|
      reads this
    {
      RunHasPrefix(Fresh(initial), history, n);
      Run(Fresh(initial), history[..n]).value.rows
    }

    /** The store's past has the rows the store says it had. */
    lemma PastRows(n: nat)
      requires Valid()
      ensures n <= |history| ==> RowsThen(SoFar(), n) == Some(RowsAfter(n))
      ensures n > |history| ==> RowsThen(SoFar(), n) == None
      ensures RowsThen(SoFar(), |history|) == Some(rows)
    {
      assert history[..|history|] == history;
      if n <= |history| {
        RunHasPrefix(Fresh(initial), history, n);
      }
    }

    /**
      However many attempts the store has seen, an order was placed once, or once more per lost
      acceptance and per erased id.
     */
    lemma PlacedOnce(id: OrderId)
      requires Valid()
      ensures Count(Now().placed, id) <= 1 + Count(Now().lost, id) + Now().forgotten[id]
    {
      PlacedAtMostOncePlusLost(initial, history, id);
    }

    /** What a submit attempt has saved is visible in the rows. */
    lemma SavedIsRecorded()
      requires Valid()
      ensures forall id :: id in Now().saved ==> HasExchangeId(rows, id)
    {
      hide Run, Count;
      RunsKeepAccounts(Fresh(initial), history);
    }

    /** A step that is not a write of this service's store calls. */
    ghost method Note(step: Step)
      requires Valid() && Enabled(Now(), step) && Apply(Now(), step).rows == rows
      modifies this`history
      ensures Grows()
      ensures Valid() && Now() == Apply(old(Now()), step) && history == old(history) + [step]
    {
      hide Apply, Enabled;
      RunExtends(Fresh(initial), history, step);
      history := history + [step];
    }

    /**
      Others write: any row may change and new ones may come, but none goes, and events and messages
      may be added. What they do is no attempt of this service.
     */
    method OthersAct()
      requires Valid()
      modifies this
      ensures Grows()
      ensures Valid() && old(rows).Keys <= rows.Keys && Now() == WithRows(old(Now()), rows)
    {
      ghost var before := Now();
      hide Run, WithRows;
      var changed: Rows, stored: seq<Event>, sent: seq<Message> := *, *, *;
      rows, events, published := rows + changed, events + stored, published + sent;
      BackgroundDoes(before, rows);
      RunExtends(Fresh(initial), history, Background(rows));
      history := history + [Background(rows)];
    }

    method FindUnique(id: OrderId) returns (r: Result<Option<Row>>)
      requires Valid()
      modifies this`history
      ensures Grows()
      ensures Valid()
      ensures r.Ok? ==> r.value == RowAt(rows, id) && Now() == old(Now()) && history == old(history)
      ensures r.Err? ==> Now() == Cut(old(Now())) && Interrupted(old(history), history)
    {
      if * {
        Note(Interrupt);
        return Err("");
      }
      r := Ok(RowAt(rows, id));
    }

    /** An upsert or update of one row; step is what the write means for the attempt under way. */
    method Write(ghost step: Step, id: OrderId, row: Row) returns (done: bool)
      requires Valid() && Enabled(Now(), step) && Apply(Now(), step).rows == rows[id := row]
      modifies this`rows, this`history
      ensures Grows()
      ensures Valid()
      ensures done ==>
                rows == old(rows)[id := row] && Now() == Apply(old(Now()), step) && history == old(history) + [step]
      ensures !done ==> || (rows == old(rows) && Now() == Cut(old(Now())))
                        || (rows == old(rows)[id := row] && Now() == Cut(Apply(old(Now()), step)))
      ensures !done ==> Interrupted(old(history), history)
    {
      if * {
        Note(Interrupt);
        return false;
      }
      ghost var before := Now();
      hide Apply, Enabled;
      RunExtends(Fresh(initial), history, step);
      rows := rows[id := row];
      history := history + [step];
      done := *;
      if !done {
        CutIsAStep(Now());
        Note(Interrupt);
      }
    }

    method CreateEvent(event: Event) returns (done: bool)
      requires Valid()
      modifies this`events, this`history
      ensures Grows()
      ensures Valid()
      ensures done ==> events == old(events) + [event] && Now() == old(Now()) && history == old(history)
      ensures !done ==> (events == old(events) || events == old(events) + [event]) && Now() == Cut(old(Now()))
      ensures !done ==> Interrupted(old(history), history)
    {
      var happens: bool := *;
      if happens {
        events := events + [event];
      }
      done := *;
      done := done && happens;
      if !done {
        Note(Interrupt);
      }
    }

    method Publish(message: Message) returns (done: bool)
      requires Valid()
      modifies this`published, this`history
      ensures Grows()
      ensures Valid()
      ensures done ==> published == old(published) + [message] && Now() == old(Now()) && history == old(history)
      ensures !done ==> (published == old(published) || published == old(published) + [message]) &&
                        Now() == Cut(old(Now()))
      ensures !done ==> Interrupted(old(history), history)
    {
      var happens: bool := *;
      if happens {
        published := published + [message];
      }
      done := *;
      done := done && happens;
      if !done {
        Note(Interrupt);
      }
    }
  }

  /** The placement state once the attempt under way has been cut off. */
  function Cut(s: State): State {
    Apply(s, Interrupt)
  }

  lemma BackgroundDoes(s: State, rows: Rows)
    ensures Enabled(s, Background(rows)) && Apply(s, Background(rows)) == WithRows(s, rows)
    ensures WithRows(s, rows).rows == rows
  {
  }

  lemma CutIsAStep(s: State)
    ensures Enabled(s, Interrupt) && Apply(s, Interrupt).rows == s.rows && !Cut(s).attempt.Accepted?
  {
  }
}
