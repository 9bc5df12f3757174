/**
  The consumer loop over the order stream: claim idle entries, read new ones, and process,
  acknowledge, dead-letter or leave pending each of them. What becomes of each Redis call is an
  input: it is answered, or its answer is lost with or without effect, or the consumer dies in it.
  The consumer carries the history of its stream, so what is proved about every run of the stream
  holds of it, and for every processed entry the stretch of the store's past in which that happened.
 */
module StreamConsumer {
  import opened Wrappers
  import opened Text
  import opened StreamContracts
  import opened ExchangeRequest
  import opened Orders
  import Placement
  import opened Store
  import opened SubmitProcessor
  import opened Commands
  import opened StreamGroup
  import opened StreamCalls

  datatype Entry = Entry(id: string, fields: Fields)

  /** A call answers, throws, or never returns because the consumer died. */
  datatype Call<+T> = Got(value: T) | Errored | Died

  // ---------- error texts ----------

  /** A thrown value: its message if it has one, and its text, which is empty for a falsy value. */
  datatype Thrown = Thrown(message: Option<string>, text: string)

  /** `safeErrorMessage` before secrets are redacted. */
  function SafeErrorMessage(e: Thrown): string {
    if e.message.GetOr("") != "" then e.message.value else if e.text != "" then e.text else UNKNOWN_ERROR
  }

  const UNKNOWN_ERROR := "Unknown error"

  /**
    The text is never empty; it is blank exactly when the message, or failing that the value's
    text, is only white space.
   */
  lemma ErrorTextIsBlank(e: Thrown)
    ensures SafeErrorMessage(e) != ""
    ensures Trim(SafeErrorMessage(e)) == "" <==>
            if e.message.GetOr("") != "" then Trim(e.message.value) == "" else e.text != "" && Trim(e.text) == ""
  {
    hide Trim;
    NothingToTrim(UNKNOWN_ERROR);
    EmptyTrims();
  }

  lemma EmptyTrims()
    ensures Trim("") == "" && UNKNOWN_ERROR != ""
  {
  }

  const INVALID_PREFIX := "Invalid stream command: "

  lemma InvalidReasonIsNotBlank(error: string)
    ensures Trim(INVALID_PREFIX + error) != ""
  {
    var s := INVALID_PREFIX + error;
    assert s[0] == 'I' && !IsSpace(s[0]);
    TrimKeepsFirst(s);
  }

  // ---------- what the store's past shows ----------

  /** A stretch of it: from and to which point of the history, and what had been stored and published. */
  datatype Witness = Witness(from: nat, at: nat, sent: seq<Message>, events: seq<Event>, published: seq<Message>)

  /** The entry parses, and its command has been processed without error between one state of the store and another. */
  ghost predicate Processed<M>(lib: Library, env: Env<M>, entry: Fields, before: Rows, sent: seq<Message>,
                               rows: Rows, events: seq<Event>, published: seq<Message>) {
    && ParseOrderCommand(env, entry).Ok?
    && Established(lib, ParseOrderCommand(env, entry).value.fields, before, sent, rows, events, published)
  }

  /** In that stretch of the past the entry's command was processed without error. */
  ghost predicate Proves<M>(lib: Library, env: Env<M>, entry: Fields, past: Past, w: Witness) {
    && w.from <= w.at && RowsThen(past, w.from).Some? && RowsThen(past, w.at).Some?
    && w.sent <= w.published <= past.published && w.events <= past.events
    && Processed(lib, env, entry, RowsThen(past, w.from).value, w.sent, RowsThen(past, w.at).value, w.events,
        w.published)
  }

  lemma ProofsStay<M>(lib: Library, env: Env<M>, entry: Fields, past: Past, past': Past, w: Witness)
    requires Proves(lib, env, entry, past, w) && Later(past, past')
    ensures Proves(lib, env, entry, past', w)
  {
    hide Processed, Placement.Run;
    assert past'.history[..w.from] == past.history[..w.from];
    assert past'.history[..w.at] == past.history[..w.at];
  }

  /** A dead letter names the entry. */
  predicate HasLetter(dlq: seq<DeadLetter>, id: string) {
    exists j :: 0 <= j < |dlq| && dlq[j].originalStreamId == id
  }

  predicate IsEntry(entries: seq<Entry>, id: string) {
    exists i :: 0 <= i < |entries| && entries[i].id == id
  }

  /**
    Ids of entries differ and are not blank; every letter names an entry, and the entries named by
    letters are the dead ones.
   */
  ghost predicate LettersMatch(entries: seq<Entry>, dlq: seq<DeadLetter>, dead: set<Id>) {
    && (forall i, j :: 0 <= i < j < |entries| ==> entries[i].id != entries[j].id)
    && (forall i :: 0 <= i < |entries| ==> Trim(entries[i].id) != "")
    && (forall j :: 0 <= j < |dlq| ==> IsEntry(entries, dlq[j].originalStreamId))
    && (forall id: Id :: id in dead ==> id < |entries|)
    && (forall id: Id :: id < |entries| ==> (id in dead <==> HasLetter(dlq, entries[id].id)))
  }

  /** The letters match the dead entries, and processed ones are witnessed by the store's past. */
  ghost predicate Backed<M>(lib: Library, env: Env<M>, entries: seq<Entry>, dlq: seq<DeadLetter>, past: Past,
                            witnesses: map<Id, Witness>, dead: set<Id>, processed: set<Id>) {
    && LettersMatch(entries, dlq, dead)
    && (forall id: Id :: id in processed ==>
          id < |entries| && id in witnesses && Proves(lib, env, entries[id].fields, past, witnesses[id]))
  }

  lemma {:induction false} LettersMatchMore(entries: seq<Entry>, entry: Entry, dlq: seq<DeadLetter>, dead: set<Id>)
    requires LettersMatch(entries, dlq, dead) && Trim(entry.id) != "" && !IsEntry(entries, entry.id)
    ensures LettersMatch(entries + [entry], dlq, dead)
  {
    hide Trim;
    var more := entries + [entry];
    forall j | 0 <= j < |dlq|
      ensures IsEntry(more, dlq[j].originalStreamId)
    {
      var i :| 0 <= i < |entries| && entries[i].id == dlq[j].originalStreamId;
      assert more[i] == entries[i];
    }
    assert forall i :: 0 <= i < |entries| ==> more[i] == entries[i];
  }

  lemma {:induction false} LetterMatches(entries: seq<Entry>, dlq: seq<DeadLetter>, dead: set<Id>, id: Id,
      letter: DeadLetter)
    requires LettersMatch(entries, dlq, dead) && id < |entries| && letter.originalStreamId == entries[id].id
    ensures LettersMatch(entries, dlq + [letter], dead + {id})
  {
    hide Trim;
    var more := dlq + [letter];
    forall other: string
      ensures HasLetter(more, other) <==> HasLetter(dlq, other) || other == letter.originalStreamId
    {
      assert more[|dlq|] == letter;
      if HasLetter(dlq, other) {
        var j :| 0 <= j < |dlq| && dlq[j].originalStreamId == other;
        assert more[j] == dlq[j];
      }
    }
    hide HasLetter;
    assert IsEntry(entries, letter.originalStreamId);
    hide IsEntry;
  }

  lemma NothingRun(maxAttempts: nat)
    ensures StreamGroup.Run(maxAttempts, []) == Some(StreamGroup.Empty())
    ensures StreamGroup.Empty() == State(0, false, 0, map[], {}, {}, {}, [], [], [], [], Ready)
  {
  }

  lemma NothingBacked<M>(lib: Library, env: Env<M>, past: Past)
    ensures Backed(lib, env, [], [], past, map[], {}, {})
  {
  }

  lemma BackedGrows<M>(lib: Library, env: Env<M>, entries: seq<Entry>, entry: Entry, dlq: seq<DeadLetter>, past: Past,
                       witnesses: map<Id, Witness>, dead: set<Id>, processed: set<Id>)
    requires Backed(lib, env, entries, dlq, past, witnesses, dead, processed)
    requires Trim(entry.id) != "" && !IsEntry(entries, entry.id)
    ensures Backed(lib, env, entries + [entry], dlq, past, witnesses, dead, processed)
  {
    hide Proves, LettersMatch, Trim;
    LettersMatchMore(entries, entry, dlq, dead);
  }

  lemma BackedLater<M>(lib: Library, env: Env<M>, entries: seq<Entry>, dlq: seq<DeadLetter>, past: Past, past': Past,
                       witnesses: map<Id, Witness>, dead: set<Id>, processed: set<Id>)
    requires Backed(lib, env, entries, dlq, past, witnesses, dead, processed) && Later(past, past')
    ensures Backed(lib, env, entries, dlq, past', witnesses, dead, processed)
  {
    hide Proves, LettersMatch, Later;
    forall id: Id | id in processed
      ensures Proves(lib, env, entries[id].fields, past', witnesses[id])
    {
      ProofsStay(lib, env, entries[id].fields, past, past', witnesses[id]);
    }
  }

  lemma BackedByWitness<M>(lib: Library, env: Env<M>, entries: seq<Entry>, dlq: seq<DeadLetter>, past: Past,
                           witnesses: map<Id, Witness>, dead: set<Id>, processed: set<Id>, id: Id, w: Witness)
    requires Backed(lib, env, entries, dlq, past, witnesses, dead, processed)
    requires id < |entries| && Proves(lib, env, entries[id].fields, past, w)
    ensures Backed(lib, env, entries, dlq, past, witnesses[id := w], dead, processed + {id})
  {
    hide Proves, HasLetter, IsEntry, Trim;
  }

  lemma BackedByLetter<M>(lib: Library, env: Env<M>, entries: seq<Entry>, dlq: seq<DeadLetter>, past: Past,
                          witnesses: map<Id, Witness>, dead: set<Id>, processed: set<Id>, id: Id, letter: DeadLetter)
    requires Backed(lib, env, entries, dlq, past, witnesses, dead, processed)
    requires id < |entries| && letter.originalStreamId == entries[id].id
    ensures Backed(lib, env, entries, dlq + [letter], past, witnesses, dead + {id}, processed)
  {
    hide Proves, LettersMatch;
    LetterMatches(entries, dlq, dead, id, letter);
  }

  /** What the world does while one entry is handled. */
  datatype World = World(answers: Answers, thrown: Thrown, dies: bool, calls: Calls)

  /** Marks are only ever added. */
  predicate Marked(s: State, t: State) {
    s.acked <= t.acked && s.processed <= t.processed && s.dead <= t.dead
  }

  /** Every entry handled so far has gone one of the ways, and those that are settled are acknowledged. */
  predicate Logged(s: State, messages: seq<Id>, log: seq<Handled>) {
    && |log| <= |messages|
    && forall i :: 0 <= i < |log| ==>
         (log[i].Acked? ==> messages[i] in s.acked && messages[i] in s.processed) &&
         (log[i].DeadLettered? ==> messages[i] in s.acked && messages[i] in s.dead)
  }

  lemma LoggedStays(s: State, t: State, messages: seq<Id>, log: seq<Handled>)
    requires Logged(s, messages, log) && Marked(s, t)
    ensures Logged(t, messages, log)
  {
  }

  lemma LogOne(s: State, t: State, messages: seq<Id>, log: seq<Handled>, handled: Handled)
    requires Logged(s, messages, log) && Marked(s, t) && |log| < |messages|
    requires handled.Acked? ==> messages[|log|] in t.acked && messages[|log|] in t.processed
    requires handled.DeadLettered? ==> messages[|log|] in t.acked && messages[|log|] in t.dead
    ensures Logged(t, messages, log + [handled])
  {
  }

  /** The stream after a read or a claim, given what becomes of the call. */
  function AfterFetch(maxAttempts: nat, s: State, heard: StreamGroup.Step, unheard: StreamGroup.Step, a: Fate): State
    requires StreamGroup.Enabled(s, heard) && StreamGroup.Enabled(s, unheard)
  {
    match a
    case Heard => StreamGroup.Apply(maxAttempts, s, heard)
    case Lost(took, died) => AfterLost(if took then StreamGroup.Apply(maxAttempts, s, unheard) else s, died)
  }

  class OrderConsumer<M(!new)> {
    const maxAttempts: nat
    const lib: Library
    const env: Env<M>
    const store: OrderStore
    var entries: seq<Entry>
    var group: bool
    var cursor: nat
    var pending: map<Id, nat>
    var dlq: seq<DeadLetter>
    var groupReady: bool
    ghost var steps: seq<StreamGroup.Step>
    ghost var witnesses: map<Id, Witness>

    ghost function Now(): State
      requires StreamGroup.Run(maxAttempts, steps).Some?
      reads this`steps
    {
      StreamGroup.Run(maxAttempts, steps).value
    }

    /** The fields are what the history of the stream has led to. */
    ghost predicate Valid()
      reads this`entries, this`group, this`cursor, this`pending, this`groupReady, this`steps
    {
      StreamGroup.Run(maxAttempts, steps).Some? && Mirrors(Now())
    }

    ghost predicate Mirrors(s: State)
      reads this`entries, this`group, this`cursor, this`pending, this`groupReady
    {
      s.entries == |entries| && s.group == group && s.cursor == cursor && s.pending == pending && (groupReady ==> group)
    }

    /** The letters and witnesses are there. */
    ghost predicate Evident()
      requires Valid()
      reads this, store
    {
      Backed(lib, env, entries, dlq, store.SoFar(), witnesses, Now().dead, Now().processed)
    }

    /** Between entries: the clock works, the letters and witnesses are there, and no submit attempt is under way. */
    ghost predicate Consistent()
      reads this, store
    {
      && Valid() && Evident() && ClockWorks(env)
      && store.Valid() && store.Now().attempt.Idle?
    }

    /** Between entries others may use the store: its past only grows, and the evidence stays. */
    twostate lemma OthersKeepConsistent()
      requires old(Consistent()) && unchanged(this)
      requires store.Valid() && store.Now().attempt.Idle? && store.Grows()
      ensures Consistent()
    {
      hide Backed, ClockWorks, StreamGroup.Run, Placement.Run, Mirrors;
      GrewLater(old(store.SoFar()), store.SoFar());
      BackedLater(lib, env, entries, dlq, old(store.SoFar()), store.SoFar(), witnesses, Now().dead, Now().processed);
    }

    /** Whether the entry's command is a submit. */
    ghost predicate IsSubmit(id: Id)
      requires id < |entries|
      reads this
    {
      ParseOrderCommand(env, entries[id].fields).Ok? &&
      KindOf(ParseOrderCommand(env, entries[id].fields).value.fields) == Kind.Submit
    }

    /**
      In every state the consumer can reach, an entry it has taken off the stream is named by a dead
      letter or was processed, and it is named by one exactly if its letter was written. If it was a
      submit that was never dead-lettered, there is a point in the past of this very store at which its
      order was recorded, with a message about it among those the store has published by then; it was
      processed, and so that point passed, before it was acknowledged.
     */
    lemma {:induction false} AckedOnlyAfterRecording(id: Id)
      requires Consistent() && id in Now().acked
      ensures id < |entries|
      ensures HasLetter(dlq, entries[id].id) || id in Now().processed
      ensures HasLetter(dlq, entries[id].id) <==> id in Now().dead
      ensures IsSubmit(id) && !HasLetter(dlq, entries[id].id) ==>
                var order := OrderOf(lib, ParseOrderCommand(env, entries[id].fields).value.fields);
                && order.Ok? && id in witnesses
                && var w := witnesses[id];
                   && w.from <= w.at <= |store.history|
                   && Recorded(store.RowsAfter(w.at), order.value.orderId)
                   && w.published <= store.published
                   && JustPublished(w.sent, w.published, order.value.orderId)
                   && SubmitWritten(store.RowsAfter(w.from), store.RowsAfter(w.at), w.events, order.value.orderId)
                   && w.events <= store.events
    {
      hide StreamGroup.Run, Placement.Run, Recorded, OrderOf, KindOf, ParseOrderCommand, Counted, Held, SubmitWritten,
          HasLetter;
      RunsAreSound(maxAttempts, steps);
      if id in Now().processed {
        store.PastRows(witnesses[id].from);
        store.PastRows(witnesses[id].at);
      }
    }

    /** Every letter names one entry, and that entry's letter was written. */
    lemma {:induction false} LetterNamesOneEntry(j: nat) returns (id: Id)
      requires Consistent() && j < |dlq|
      ensures id < |entries| && entries[id].id == dlq[j].originalStreamId && id in Now().dead
      ensures forall other: Id :: other < |entries| && entries[other].id == dlq[j].originalStreamId ==> other == id
    {
      hide StreamGroup.Run, Placement.Run, Proves, Trim, ClockWorks;
      id :| id < |entries| && entries[id].id == dlq[j].originalStreamId;
      assert HasLetter(dlq, entries[id].id);
    }

    /**
      The consumer's own stream: nothing is lost, and an entry's deliveries are bounded by the limit,
      its faults and the letters that could not be built for it.
     */
    lemma {:induction false} StreamIsKept(id: Id)
      requires Valid() && id < |entries|
      ensures (id >= cursor ==> id !in pending && id !in Now().acked)
      ensures (id < cursor ==> (id in pending <==> id !in Now().acked))
      ensures Count(Now().deliveries, id) <= Bound(maxAttempts) + Count(Now().faults, id) + Count(Now().unbuilt, id)
    {
      hide StreamGroup.Run;
      NothingIsLost(maxAttempts, steps, id);
      DeliveriesAreBounded(maxAttempts, steps, id);
    }

    constructor (maxAttempts: nat, lib: Library, env: Env<M>, store: OrderStore)
      requires store.Valid() && store.Now().attempt.Idle? && ClockWorks(env)
      ensures Consistent() && entries == [] && this.store == store
    {
      hide *;
      this.maxAttempts, this.lib, this.env, this.store := maxAttempts, lib, env, store;
      entries, group, cursor, pending, dlq, groupReady := [], false, 0, map[], [], false;
      steps, witnesses := [], map[];
      new;
      StartsConsistent();
    }

    lemma StartsConsistent()
      requires steps == [] && entries == [] && dlq == [] && witnesses == map[] && pending == map[]
      requires !group && cursor == 0 && !groupReady
      requires store.Valid() && store.Now().attempt.Idle? && ClockWorks(env)
      ensures Consistent()
    {
      hide Backed, ClockWorks, Placement.Run, StreamGroup.Run;
      NothingRun(maxAttempts);
      assert Valid();
      NothingBacked(lib, env, store.SoFar());
    }

    /** Recording a step whose effect on the fields has just been made. */
    ghost method Record(step: StreamGroup.Step, before: State)
      requires StreamGroup.Run(maxAttempts, steps) == Some(before) && StreamGroup.Enabled(before, step)
      requires Mirrors(StreamGroup.Apply(maxAttempts, before, step))
      modifies this`steps
      ensures Valid() && Now() == StreamGroup.Apply(maxAttempts, before, step)
    {
      hide StreamGroup.Apply, StreamGroup.Enabled, Mirrors;
      StreamGroup.RunExtends(maxAttempts, steps, step);
      steps := steps + [step];
    }

    /** A producer appends an entry; Redis gives it an id of its own. The store is not involved. */
    method Append(entry: Entry)
      requires Valid() && Evident() && Trim(entry.id) != "" && !IsEntry(entries, entry.id)
      modifies this`entries, this`steps
      ensures Valid() && Evident() && entries == old(entries) + [entry] && Now() == old(Now()).(entries := |entries|)
    {
      ghost var (before, past) := (Now(), store.SoFar());
      BackedGrows(lib, env, entries, entry, dlq, past, witnesses, before.dead, before.processed);
      hide Backed, StreamGroup.Run, Mirrors, Trim, IsEntry;
      XAdd(entry);
      assert store.SoFar() == past;
      assert Backed(lib, env, entries, dlq, past, witnesses, before.dead, before.processed);
    }

    method XAdd(entry: Entry)
      requires Valid()
      modifies this`entries, this`steps
      ensures Valid() && entries == old(entries) + [entry] && Now() == old(Now()).(entries := |entries|)
    {
      ghost var before := Now();
      hide StreamGroup.Run;
      entries := entries + [entry];
      Record(StreamGroup.Append, before);
    }

    /** The consumer dies: what it held in memory is gone, the stream and the store are not. */
    method Die()
      requires Valid()
      modifies this`groupReady, this`steps
      ensures Valid() && Now() == Restarted(old(Now())) && !groupReady
    {
      ghost var before := Now();
      hide StreamGroup.Run, StreamGroup.Apply, StreamGroup.Enabled;
      CrashDoes(maxAttempts, before);
      groupReady := false;
      Record(Crash, before);
    }

    /** A call whose answer is lost: it throws, unless the consumer died in it. */
    method Unanswered<T>(died: bool) returns (call: Call<T>)
      requires Valid()
      modifies this`groupReady, this`steps
      ensures Valid() && Now() == AfterLost(old(Now()), died)
      ensures call == if died then Died else Errored
    {
      if died {
        Die();
        return Died;
      }
      call := Errored;
    }

    /** The entry the consumer is working on. */
    ghost predicate InHand(id: Id)
      requires Valid()
      reads this
    {
      Now().batch != [] && Now().batch[0] == id
    }

    lemma {:induction false} HeadWasDelivered()
      requires Valid() && Now().batch != []
      ensures var id := Now().batch[0]; id < |entries| && (id in Now().pending || id in Now().acked)
      ensures Now().phase.Ready? ==> Now().batch[0] in Now().pending
    {
      hide StreamGroup.Run, Counted;
      RunsAreSound(maxAttempts, steps);
    }

    // ---------- Redis calls ----------

    /** `ensureOrderConsumerGroup`: the group starts at the beginning; that it exists already is no error. */
    method EnsureGroup(a: Fate) returns (call: Call<()>)
      requires Valid() && Now().batch == []
      modifies this`group, this`groupReady, this`steps
      ensures Valid() && Now() == AfterLost(old(Now()).(group := TookEffect(a) || old(group)), a.Lost? && a.died)
      ensures call == if a.Heard? then Got(()) else if a.died then Died else Errored
      ensures call.Got? ==> group
    {
      ghost var before := Now();
      hide StreamGroup.Run;
      if TookEffect(a) {
        group := true;
        Record(CreateGroup, before);
      }
      if a.Heard? {
        return Got(());
      }
      call := Unanswered(a.died);
    }

    /** Some of the pending entries, as XAUTOCLAIM finds them idle. */
    method SomePending(count: nat) returns (ids: seq<Id>)
      ensures |ids| <= count && Distinct(ids) && forall i :: 0 <= i < |ids| ==> ids[i] in pending
    {
      ids := [];
      var keys := pending.Keys;
      while keys != {} && |ids| < count
        invariant keys <= pending.Keys && |ids| <= count && Distinct(ids)
        invariant forall i :: 0 <= i < |ids| ==> ids[i] in pending && ids[i] !in keys
        decreases keys
      {
        var id :| id in keys;
        var idle: bool := *;
        if idle {
          ids := ids + [id];
        }
        keys := keys - {id};
      }
    }

    /** `claimIdleOrderStreamMessages`: pending entries are handed out again, and each counts one delivery more. */
    method ClaimIdle(count: nat, a: Fate) returns (call: Call<seq<Id>>, ghost ids: seq<Id>)
      requires Valid() && Now().batch == [] && group
      modifies this`pending, this`groupReady, this`steps
      ensures Valid() && |ids| <= count && StreamGroup.Enabled(old(Now()), Claim(ids, true))
      ensures Now() == AfterFetch(maxAttempts, old(Now()), Claim(ids, true), Claim(ids, false), a)
      ensures call == if a.Heard? then Got(ids) else if a.died then Died else Errored
    {
      ghost var before := Now();
      hide StreamGroup.Run;
      var some := SomePending(count);
      ids := some;
      if TookEffect(a) {
        pending := map id | id in pending :: if id in some then pending[id] + 1 else pending[id];
        Record(Claim(some, a.Heard?), before);
      }
      if a.Heard? {
        return Got(some), ids;
      }
      call := Unanswered(a.died);
    }

    /** How many entries a read of at most count hands out. */
    function Available(count: nat): nat
      reads this`cursor, this`entries
    {
      if cursor > |entries| then 0 else if cursor + count <= |entries| then count else |entries| - cursor
    }

    /**
      `readNewOrderStreamMessages`: the next entries after the last delivered one, in stream order,
      each with count 1.
     */
    method ReadNew(count: nat, a: Fate) returns (call: Call<seq<Id>>)
      requires Valid() && Now().batch == [] && group
      modifies this`pending, this`cursor, this`groupReady, this`steps
      ensures Valid() && StreamGroup.Enabled(old(Now()), Read(old(Available(count)), true))
      ensures Now() == AfterFetch(maxAttempts, old(Now()), Read(old(Available(count)), true),
          Read(old(Available(count)), false), a)
      ensures call == if a.Heard? then Got(Range(old(cursor),
          old(Available(count)))) else if a.died then Died else Errored
    {
      ghost var before := Now();
      hide StreamGroup.Run;
      CursorInStream();
      var n := Available(count);
      var ids := Range(cursor, n);
      if TookEffect(a) {
        pending := pending + map id | id in ids :: 1;
        cursor := cursor + n;
        Record(Read(n, a.Heard?), before);
      }
      if a.Heard? {
        return Got(ids);
      }
      call := Unanswered(a.died);
    }

    lemma {:induction false} CursorInStream()
      requires Valid()
      ensures cursor <= |entries|
    {
      hide StreamGroup.Run, Counted;
      RunsAreSound(maxAttempts, steps);
    }

    /** XACK of the entry in hand, after processing it or writing its dead letter. */
    method XAck(id: Id, a: Fate) returns (call: Call<()>)
      requires Valid() && InHand(id) && (Now().phase.Done? || Now().phase.Buried?)
      modifies this`pending, this`groupReady, this`steps
      ensures Valid() && Now() == AfterAck(maxAttempts, old(Now()), a)
      ensures call == if a.Heard? then Got(()) else if a.died then Died else Errored
    {
      ghost var before := Now();
      hide StreamGroup.Run, StreamGroup.Apply, StreamGroup.Enabled;
      AckDoes(maxAttempts, before, a.Heard?);
      if before.phase.Buried? {
        StumbleDoes(maxAttempts, before);
      }
      HeadWasDelivered();
      if TookEffect(a) {
        pending := pending - {id};
        Record(Ack(a.Heard?), before);
      } else {
        Record(if before.phase.Done? then AckFails else Stumble, before);
      }
      if a.Heard? {
        return Got(());
      }
      call := Unanswered(a.died);
    }

    /** `getDeliveryCount` of the entry in hand; an entry that is no longer pending counts as delivered once. */
    method DeliveryCount(id: Id, a: Fate) returns (call: Call<nat>)
      requires Valid() && InHand(id) && (Now().phase.Ready? || Now().phase.Erring?)
      modifies this`groupReady, this`steps
      ensures Valid() && Now() == AfterCount(maxAttempts, old(Now()), a)
      ensures call == if a.Heard? then Got(Attempts(old(Now()), id)) else if a.died then Died else Errored
    {
      ghost var before := Now();
      hide StreamGroup.Run, StreamGroup.Apply, StreamGroup.Enabled;
      if a.Heard? {
        return Got(if id in pending then pending[id] else 1);
      }
      StumbleDoes(maxAttempts, before);
      Record(Stumble, before);
      call := Unanswered(a.died);
    }

    /** XADD to the dead-letter stream. */
    method XAddLetter(id: Id, letter: DeadLetter, a: Fate) returns (call: Call<()>)
      requires Valid() && InHand(id) && Now().phase.Built?
      modifies this`dlq, this`groupReady, this`steps
      ensures Valid() && Now() == AfterLetter(maxAttempts, old(Now()), a)
      ensures dlq == if TookEffect(a) then old(dlq) + [letter] else old(dlq)
      ensures call == if a.Heard? then Got(()) else if a.died then Died else Errored
    {
      ghost var before := Now();
      hide StreamGroup.Run, StreamGroup.Apply, StreamGroup.Enabled;
      BuryDoes(maxAttempts, before, a.Heard?);
      StumbleDoes(maxAttempts, before);
      if TookEffect(a) {
        dlq := dlq + [letter];
        Record(Bury(a.Heard?), before);
      } else {
        Record(Stumble, before);
      }
      if a.Heard? {
        return Got(());
      }
      call := Unanswered(a.died);
    }

    // ---------- one entry ----------

    /** The letter for an entry, where one can be built. */
    function LetterFor(id: Id, reason: string, command: Fields, attempts: nat): Result<DeadLetter>
      requires id < |entries|
      reads this`entries
    {
      BuildDeadLetter(env, entries[id].id, reason, command, attempts, None)
    }

    /** At most one letter has been written, for the entry and the reason. */
    twostate predicate Lettered(id: Id, written: bool, reason: string)
      requires id < |old(entries)|
      reads this
    {
      if !written then dlq == old(dlq)
      else
        && |dlq| == |old(dlq)| + 1 && dlq[..|old(dlq)|] == old(dlq)
        && dlq[|old(dlq)|].originalStreamId == old(entries)[id].id && dlq[|old(dlq)|].reason == reason
    }

    /**
      `writeDeadLetterAndAck`: the letter, then the acknowledgement; a blank reason makes building
      the letter throw.
     */
    method WriteDeadLetterAndAck(id: Id, command: Fields, attempts: nat, reason: string, c: Calls) returns (r: Handled)
      requires Valid() && InHand(id) && Now().phase.Burying? && id < |entries| && Trim(entries[id].id) != ""
          && ClockWorks(env)
      modifies this`pending, this`dlq, this`groupReady, this`steps
      ensures Valid()
      ensures var course := Burial(maxAttempts, old(Now()), reason, c);
              Now() == course.state && r == course.handled && Lettered(id, course.letter, reason)
    {
      hide StreamGroup.Run, StreamGroup.Apply, StreamGroup.Enabled, Trim, AfterLetter, AfterAck;
      ghost var before := Now();
      BuildDoes(maxAttempts, before, reason);
      var built := LetterFor(id, reason, command, attempts);
      Record(Build(reason), before);
      if built.Err? {
        return LeftPending;
      }
      LetterDoes(maxAttempts, Now(), c.letter);
      var added := XAddLetter(id, built.value, c.letter);
      if !added.Got? {
        return if added.Died? then Crashed else LeftPending;
      }
      var acked := XAck(id, c.letterAck);
      r := if acked.Got? then DeadLettered else if acked.Died? then Crashed else LeftPending;
    }

    /** An entry that does not parse is dead-lettered at once, with its raw fields. */
    method HandleInvalid(id: Id, reason: string, c: Calls) returns (r: Handled)
      requires Valid() && InHand(id) && Now().phase.Ready? && id < |entries| && Trim(entries[id].id) != ""
          && ClockWorks(env)
      modifies this`pending, this`dlq, this`groupReady, this`steps
      ensures Valid()
      ensures var course := AfterInvalid(maxAttempts, old(Now()), reason, c);
              Now() == course.state && r == course.handled && Lettered(id, course.letter, reason)
    {
      hide StreamGroup.Run, StreamGroup.Apply, StreamGroup.Enabled, Burial, AfterCount, Attempts, Trim;
      HandlingDoes(maxAttempts, Now());
      var attempts := DeliveryCount(id, c.count);
      if !attempts.Got? {
        return if attempts.Died? then Crashed else LeftPending;
      }
      CountHeard(maxAttempts, old(Now()), c.count);
      Record(Invalid, Now());
      r := WriteDeadLetterAndAck(id, entries[id].fields, attempts.value, reason, c);
    }

    /** After an error: a dead letter once the allowed attempts are used up, otherwise another attempt later. */
    method HandleError(id: Id, command: Fields, message: string, c: Calls) returns (r: Handled)
      requires Valid() && InHand(id) && Now().phase.Erring? && id < |entries| && Trim(entries[id].id) != ""
          && ClockWorks(env)
      modifies this`pending, this`dlq, this`groupReady, this`steps
      ensures Valid()
      ensures var course := AfterError(maxAttempts, old(Now()), message, c);
              Now() == course.state && r == course.handled && Lettered(id, course.letter, message)
      ensures c.count.Heard? && c.letter.Heard? && c.letterAck.Heard? ==>
                r == if Attempts(old(Now()), id) >= maxAttempts
                    && Trim(message) != "" then DeadLettered else LeftPending
    {
      hide StreamGroup.Run, StreamGroup.Apply, StreamGroup.Enabled, Burial, AfterCount, Attempts, Trim;
      JudgeDoes(maxAttempts, Now());
      ErrorEnds(maxAttempts, Now(), message, c);
      var attempts := DeliveryCount(id, c.count);
      if !attempts.Got? {
        return if attempts.Died? then Crashed else LeftPending;
      }
      CountHeard(maxAttempts, old(Now()), c.count);
      Record(Judge, Now());
      if attempts.value < maxAttempts {
        return LeftPending;
      }
      r := WriteDeadLetterAndAck(id, command, attempts.value, message, c);
    }

    /** Processing the parsed command; the consumer may die whatever the processor has done by then. */
    method Execute(id: Id, fields: Fields, answers: Answers, dies: bool) returns (executed: Executed)
      requires Valid() && InHand(id) && Now().phase.Ready?
      requires store.Valid() && store.Now().attempt.Idle?
      modifies this`steps, this`groupReady, store
      ensures Valid() && store.Valid() && store.Now().attempt.Idle?
      ensures store.Grows() && KeepsOrders(old(store.rows), store.rows)
      ensures Now() == (match executed
                        case Finished => StreamGroup.Apply(maxAttempts, old(Now()), Process)
                        case Raised => StreamGroup.Apply(maxAttempts, old(Now()), Fail)
                        case DiedIn => Restarted(old(Now())))
      ensures executed.DiedIn? ==> dies
      ensures !executed.Finished? ==> Interrupted(old(store.history), store.history) || LacksField(fields)
      ensures executed.Finished? ==>
                Established(lib, fields, old(store.rows), old(store.published), store.rows, store.events,
                    store.published)
    {
      hide StreamGroup.Run, StreamGroup.Apply, StreamGroup.Enabled, Established, KeepsOrders, LacksField, Interrupted;
      HandlingDoes(maxAttempts, Now());
      var outcome := ProcessOrderCommand(store, lib, fields, answers);
      if !outcome.Threw? {
        Record(Process, Now());
        return Finished;
      }
      if dies {
        Die();
        return DiedIn;
      }
      Record(Fail, Now());
      executed := Raised;
    }

    /** What handling an entry comes to, given how its processing ended. */
    ghost function CourseOf(s: State, id: Id, executed: Executed, world: World): Course
      requires s.batch != [] && s.phase.Ready? && id < |entries|
      reads this`entries
    {
      var parsed := ParseOrderCommand(env, entries[id].fields);
      if parsed.Err? then AfterInvalid(maxAttempts, s, INVALID_PREFIX + parsed.error, world.calls)
      else AfterValid(maxAttempts, s, executed, SafeErrorMessage(world.thrown), world.calls)
    }

    function ReasonOf(id: Id, world: World): string
      requires id < |entries|
      reads this`entries
    {
      var parsed := ParseOrderCommand(env, entries[id].fields);
      if parsed.Err? then INVALID_PREFIX + parsed.error else SafeErrorMessage(world.thrown)
    }

    /** `handleOrderStreamMessage`: parse, process, acknowledge, or deal with the error. */
    method HandleEntry(id: Id, world: World) returns (r: Handled, executed: Executed)
      requires Valid() && InHand(id) && Now().phase.Ready? && id < |entries| && Trim(entries[id].id) != ""
          && ClockWorks(env)
      requires store.Valid() && store.Now().attempt.Idle?
      modifies this`pending, this`dlq, this`groupReady, this`steps, store
      ensures Valid() && store.Valid() && store.Now().attempt.Idle?
      ensures store.Grows() && KeepsOrders(old(store.rows), store.rows)
      ensures executed.DiedIn? ==> world.dies
      ensures !executed.Finished? && ParseOrderCommand(env, old(entries)[id].fields).Ok? ==>
                Interrupted(old(store.history), store.history)
      ensures var course := old(CourseOf(Now(), id, executed, world));
              Now() == course.state && r == course.handled && Lettered(id, course.letter, old(ReasonOf(id, world)))
      ensures executed.Finished? ==>
                Processed(lib, env, old(entries)[id].fields, old(store.rows), old(store.published),
                          store.rows, store.events, store.published)
    {
      hide StreamGroup.Run, StreamGroup.Apply, StreamGroup.Enabled, ParseOrderCommand, Established, KeepsOrders, Trim;
      hide AfterError, Burial, AfterInvalid, SafeErrorMessage, AfterAck, LacksField, Interrupted;
      KeepsOrdersUnchanged(store.rows);
      var parsed := ParseOrderCommand(env, entries[id].fields);
      if parsed.Err? {
        r := HandleInvalid(id, INVALID_PREFIX + parsed.error, world.calls);
        return r, Raised;
      }
      ParsedLacksNothing(env, entries[id].fields);
      HandlingDoes(maxAttempts, Now());
      HeadWasDelivered();
      executed := Execute(id, parsed.value.fields, world.answers, world.dies);
      if executed.DiedIn? {
        return Crashed, executed;
      }
      if executed.Finished? {
        SuccessAckDoes(maxAttempts, Now(), world.calls.ack);
        var acked := XAck(id, world.calls.ack);
        if !acked.Errored? {
          return if acked.Got? then Acked else Crashed, executed;
        }
      }
      r := HandleError(id, parsed.value.fields, SafeErrorMessage(world.thrown), world.calls);
    }

    /** What every way of handling an entry comes to. */
    lemma CourseEnds(s: State, id: Id, executed: Executed, world: World)
      requires s.batch != [] && s.phase.Ready? && s.batch[0] == id && id in s.pending && id < |entries|
      requires executed.Finished? ==> ParseOrderCommand(env, entries[id].fields).Ok?
      ensures var course := CourseOf(s, id, executed, world);
              && Turned(s, course) && s.acked <= course.state.acked
              && course.state.dead == (if course.letter then s.dead + {id} else s.dead)
              && course.state.processed == (if executed.Finished? then s.processed + {id} else s.processed)
              && (course.state.faults != s.faults ==> Disturbed(executed, world.calls))
              && (course.handled.Acked? ==> executed.Finished? && id in course.state.acked)
              && (course.handled.DeadLettered? ==> course.letter && id in course.state.acked)
              && (!Disturbed(executed, world.calls) ==> course.handled == Undisturbed(s, id, executed, world))
    {
      hide ParseOrderCommand, AfterInvalid, AfterValid, Trim;
      var parsed := ParseOrderCommand(env, entries[id].fields);
      if parsed.Err? {
        InvalidReasonIsNotBlank(parsed.error);
        InvalidEnds(maxAttempts, s, INVALID_PREFIX + parsed.error, world.calls);
      } else {
        ValidEnds(maxAttempts, s, executed, SafeErrorMessage(world.thrown), world.calls);
      }
    }

    /** How an entry is handled when every call is answered and the consumer lives. */
    ghost function Undisturbed(s: State, id: Id, executed: Executed, world: World): Handled
      requires id in s.pending && id < |entries|
      reads this`entries
    {
      if ParseOrderCommand(env, entries[id].fields).Err? then DeadLettered
      else if executed.Finished? then Acked
      else if s.pending[id] >= maxAttempts && Trim(SafeErrorMessage(world.thrown)) != "" then DeadLettered
      else LeftPending
    }

    /** The entry parses, every Redis call about it will be answered and the consumer lives. */
    ghost predicate Calm(id: Id, world: World)
      reads this`entries
    {
      id < |entries| && ParseOrderCommand(env, entries[id].fields).Ok? && AllHeard(world.calls) && !world.dies
    }

    /**
      `handleOrderStreamMessage`. Undisturbed, an entry is acknowledged if its command was processed,
      dead-lettered if it does not parse or its attempts are used up and the error's text is not blank,
      and left pending otherwise; in any case it is acknowledged only after one of the two. A fault
      means that a call went unanswered or the consumer died. Processing a command that parses ends with
      an error only if a call of the store fails: with every call answered the entry is acknowledged on
      the spot. What was processed is witnessed by the
      stretch of the store's past that this very call has added.
     */
    method Handle(id: Id, world: World) returns (r: Handled, executed: Executed)
      requires Consistent() && InHand(id) && Now().phase.Ready?
      modifies this`pending, this`dlq, this`groupReady, this`steps, this`witnesses, store
      ensures Consistent() && id < |entries| && id in old(Now()).pending
      ensures store.Grows() && KeepsOrders(old(store.rows), store.rows)
      ensures executed.DiedIn? ==> world.dies
      ensures !executed.Finished? && ParseOrderCommand(env, entries[id].fields).Ok? ==>
                Interrupted(old(store.history), store.history)
      ensures Calm(id, world) && !Interrupted(old(store.history), store.history) ==> r.Acked?
      ensures Now() == old(CourseOf(Now(), id, executed, world)).state
          && r == old(CourseOf(Now(), id, executed, world)).handled
      ensures !Disturbed(executed, world.calls) ==> r == old(Undisturbed(Now(), id, executed, world))
      ensures Now().faults != old(Now()).faults ==> Disturbed(executed, world.calls)
      ensures r.Acked? ==> id in Now().acked && executed.Finished?
      ensures r.DeadLettered? ==> id in Now().acked && id in Now().dead
      ensures Marked(old(Now()), Now()) && (executed.Finished? ==> id in Now().processed)
      ensures if r.Crashed? then Now().batch == [] else Now().batch == old(Now()).batch[1..] && Now().phase.Ready?
      ensures witnesses == if executed.Finished? then old(witnesses)[id :=
          Stretch(old(store.SoFar()), store.SoFar())] else old(witnesses)
    {
      hide StreamGroup.Run, Placement.Run, Proves, Processed, Backed, KeepsOrders, Mirrors, CourseOf, Trim;
      hide ClockWorks, Stretch, Turned, Later, ParseOrderCommand, Interrupted;
      HeadWasDelivered();
      ghost var before := Now();
      r, executed := HandleAndRemember(id, world);
      CourseEnds(before, id, executed, world);
      TurnedMeans(before, old(CourseOf(Now(), id, executed, world)));
    }

    /** Handling an entry, and keeping the evidence of it. */
    method HandleAndRemember(id: Id, world: World) returns (r: Handled, executed: Executed)
      requires Consistent() && InHand(id) && Now().phase.Ready? && id < |entries| && id in Now().pending
      modifies this`pending, this`dlq, this`groupReady, this`steps, this`witnesses, store
      ensures Consistent()
      ensures store.Grows() && KeepsOrders(old(store.rows), store.rows)
      ensures executed.DiedIn? ==> world.dies
      ensures !executed.Finished? && ParseOrderCommand(env, entries[id].fields).Ok? ==>
                Interrupted(old(store.history), store.history)
      ensures executed.Finished? ==> ParseOrderCommand(env, entries[id].fields).Ok?
      ensures var course := old(CourseOf(Now(), id, executed, world)); Now() == course.state && r == course.handled
      ensures witnesses == if executed.Finished? then old(witnesses)[id :=
          Stretch(old(store.SoFar()), store.SoFar())] else old(witnesses)
    {
      hide StreamGroup.Run, Placement.Run, Proves, Processed, Backed, KeepsOrders, Mirrors, CourseOf, Undisturbed, Trim;
      hide ClockWorks, Disturbed, Stretch, Turned, Later, ParseOrderCommand, Interrupted;
      BackedIds(lib, env, entries, dlq, store.SoFar(), witnesses, Now().dead, Now().processed, id);
      ghost var (before, letters, past) := (Now(), dlq, store.SoFar());
      r, executed := HandleEntry(id, world);
      FinishedMeansParsed(id, executed, past, store.SoFar(), old(store.rows), store.rows);
      CourseEnds(before, id, executed, world);
      GrewLater(past, store.SoFar());
      Remember(id, executed, before, letters, past, old(store.rows));
    }

    /** The evidence after an entry has been handled. */
    ghost method Remember(id: Id, executed: Executed, s: State, letters: seq<DeadLetter>, past: Past, before: Rows)
      requires Valid() && store.Valid() && id < |entries| && Later(past, store.SoFar())
      requires Backed(lib, env, entries, letters, past, witnesses, s.dead, s.processed)
      requires || (dlq == letters && Now().dead == s.dead)
               || (|dlq| == |letters| + 1 && dlq[..|letters|] == letters &&
                   dlq[|letters|].originalStreamId == entries[id].id && Now().dead == s.dead + {id})
      requires Now().processed == if executed.Finished? then s.processed + {id} else s.processed
      requires var t := Placement.Run(Placement.Fresh(past.initial), past.history); t.Some? && t.value.rows == before
      requires executed.Finished? ==>
                 Processed(lib, env, entries[id].fields, before, past.published, store.rows, store.events,
                     store.published)
      modifies this`witnesses
      ensures Backed(lib, env, entries, dlq, store.SoFar(), witnesses, Now().dead, Now().processed)
      ensures witnesses == if executed.Finished? then old(witnesses)[id :=
          Stretch(past, store.SoFar())] else old(witnesses)
    {
      hide StreamGroup.Run, Placement.Run, Proves, Processed, Backed, Mirrors, Stretch, Later;
      BackedLater(lib, env, entries, letters, past, store.SoFar(), witnesses, s.dead, s.processed);
      LetterKeepsBacked(lib, env, entries, letters, dlq, store.SoFar(), witnesses, s.dead, Now().dead, s.processed, id);
      if executed.Finished? {
        StretchProves(lib, env, entries[id].fields, past, store.SoFar(), before, store.rows);
        BackedByWitness(lib, env, entries, dlq, store.SoFar(), witnesses, Now().dead, s.processed, id,
            Stretch(past, store.SoFar()));
        witnesses := witnesses[id := Stretch(past, store.SoFar())];
      }
    }

    lemma FinishedMeansParsed(id: Id, executed: Executed, past: Past, past': Past, before: Rows, rows: Rows)
      requires id < |entries|
      requires executed.Finished? ==>
                 Processed(lib, env, entries[id].fields, before, past.published, rows, past'.events, past'.published)
      ensures executed.Finished? ==> ParseOrderCommand(env, entries[id].fields).Ok?
    {
      hide ParseOrderCommand, Established;
    }

    // ---------- the loop ----------

    /** What the world will do while the next entry is handled. */
    method Ask() returns (world: World)
    {
      world := *;
    }

    /** `handleMessages`: one entry after the other, in order; an entry left pending does not stop the next. */
    method HandleMessages(messages: seq<Id>)
      returns (alive: bool, ghost log: seq<Handled>, ghost worlds: seq<World>)
      requires Consistent() && Now().batch == messages && Now().phase.Ready?
      modifies this`pending, this`dlq, this`groupReady, this`steps, this`witnesses, store
      ensures Consistent() && Now().batch == [] && store.Grows() && KeepsOrders(old(store.rows), store.rows)
      ensures Logged(Now(), messages, log) && Marked(old(Now()), Now())
      ensures alive ==> |log| == |messages| && Crashed !in log
      ensures !alive ==> log != [] && log[|log| - 1] == Crashed
      ensures |worlds| == |log|
      ensures !Interrupted(old(store.history), store.history) ==>
                forall i :: 0 <= i < |log| && Calm(messages[i], worlds[i]) ==> log[i].Acked?
    {
      hide StreamGroup.Run, Placement.Run, Backed, Mirrors, KeepsOrders, ClockWorks, CourseOf, Undisturbed, Disturbed,
          Stretch;
      hide Logged, Interrupted, Calm;
      KeepsOrdersUnchanged(store.rows);
      log, worlds := [], [];
      NothingLogged(Now(), messages);
      for k := 0 to |messages|
        invariant Consistent() && Now().batch == messages[k..] && Now().phase.Ready?
        invariant store.Grows() && KeepsOrders(old(store.rows), store.rows)
        invariant |log| == k && Logged(Now(), messages, log) && Crashed !in log
        invariant Marked(old(Now()), Now()) && |worlds| == k
        invariant !Interrupted(old(store.history), store.history) ==>
                    forall i :: 0 <= i < k && Calm(messages[i], worlds[i]) ==> log[i].Acked?
      {
        ghost var (rows, before, history) := (store.rows, Now(), store.history);
        var world := Ask();
        var handled, executed := Handle(messages[k], world);
        KeepsOrdersComposes(old(store.rows), rows, store.rows);
        LogOne(before, Now(), messages, log, handled);
        log, worlds := log + [handled], worlds + [world];
        StillInterrupted(old(store.history), history, store.history);
        if handled.Crashed? {
          return false, log, worlds;
        }
      }
      alive := true;
    }

    lemma NothingLogged(s: State, messages: seq<Id>)
      ensures Logged(s, messages, [])
    {
    }

    /** The first half of a turn: idle entries are claimed and handled. */
    method HandleClaimed(readCount: nat, claim: Fate)
      returns (call: Call<()>, ghost ids: seq<Id>, ghost log: seq<Handled>)
      requires Consistent() && Now().batch == [] && group
      modifies this`pending, this`dlq, this`groupReady, this`steps, this`witnesses, store
      ensures Consistent() && Now().batch == [] && store.Grows() && KeepsOrders(old(store.rows), store.rows)
      ensures Marked(old(Now()), Now()) && (call.Got? ==> claim.Heard?) && cursor == old(cursor)
      ensures StreamGroup.Enabled(old(Now()), Claim(ids, true)) && Logged(Now(), ids, log)
      ensures call.Got? <==> claim.Heard? && |log| == |ids| && Crashed !in log
      ensures claim.Heard? ==> !call.Errored?
      ensures call.Died? ==> Kills(claim) || Crashed in log
    {
      hide StreamGroup.Run, Placement.Run, Backed, KeepsOrders, ClockWorks, Mirrors;
      KeepsOrdersUnchanged(store.rows);
      ghost var worlds;
      log := [];
      var claimed;
      claimed, ids := ClaimIdle(readCount, claim);
      ClaimMarks(old(Now()), ids, claim);
      if !claimed.Got? {
        return if claimed.Died? then Died else Errored, ids, [];
      }
      var alive;
      alive, log, worlds := HandleMessages(claimed.value);
      call := if alive then Got(()) else Died;
    }

    /** The second half: new entries are read and handled; each of them is handed out exactly once that way. */
    method HandleNew(readCount: nat, read: Fate) returns (call: Call<()>, ghost log: seq<Handled>)
      requires Consistent() && Now().batch == [] && group
      modifies this`cursor, this`pending, this`dlq, this`groupReady, this`steps, this`witnesses, store
      ensures Consistent() && Now().batch == [] && store.Grows() && KeepsOrders(old(store.rows), store.rows)
      ensures Marked(old(Now()), Now()) && (call.Got? ==> read.Heard?)
      ensures cursor == if TookEffect(read) then old(cursor) + old(Available(readCount)) else old(cursor)
      ensures Logged(Now(), Range(old(cursor), old(Available(readCount))), log)
      ensures call.Got? <==> read.Heard? && |log| == old(Available(readCount)) && Crashed !in log
      ensures read.Heard? ==> !call.Errored?
      ensures call.Died? ==> Kills(read) || Crashed in log
    {
      hide StreamGroup.Run, Placement.Run, Backed, KeepsOrders, ClockWorks, Available;
      KeepsOrdersUnchanged(store.rows);
      ghost var worlds;
      var newest := ReadNew(readCount, read);
      ReadMarks(old(Now()), old(Available(readCount)), read);
      if !newest.Got? {
        return if newest.Died? then Died else Errored, [];
      }
      var alive;
      alive, log, worlds := HandleMessages(newest.value);
      call := if alive then Got(()) else Died;
    }

    lemma ClaimMarks(s: State, ids: seq<Id>, a: Fate)
      requires StreamGroup.Enabled(s, Claim(ids, true))
      ensures var t := AfterFetch(maxAttempts, s, Claim(ids, true), Claim(ids, false), a);
              && t.acked == s.acked && t.processed == s.processed && t.dead == s.dead && t.cursor == s.cursor
              && (if a.Heard? then t.batch == ids && t.phase.Ready? else t.batch == [])
    {
    }

    lemma ReadMarks(s: State, count: nat, a: Fate)
      requires StreamGroup.Enabled(s, Read(count, true))
      ensures var t := AfterFetch(maxAttempts, s, Read(count, true), Read(count, false), a);
              && t.acked == s.acked && t.processed == s.processed && t.dead == s.dead
              && t.cursor == (if TookEffect(a) then s.cursor + count else s.cursor)
              && (if a.Heard? then t.batch == Range(s.cursor, count) && t.phase.Ready? else t.batch == [])
    {
    }

    /**
      One turn of the consumer loop; an error anywhere ends the turn with nothing in hand, and the
      next one starts over.
     */
    method Turn(readCount: nat, create: Fate, claim: Fate, read: Fate)
      returns (alive: bool, ghost ids: seq<Id>, ghost claimedLog: seq<Handled>, ghost newLog: seq<Handled>)
      requires Consistent() && Now().batch == []
      modifies this`group, this`cursor, this`pending, this`dlq, this`groupReady, this`steps, this`witnesses, store
      ensures Consistent() && Now().batch == [] && store.Grows() && KeepsOrders(old(store.rows), store.rows)
      ensures Marked(old(Now()), Now())
      ensures cursor == old(cursor) || cursor == old(cursor) + old(Available(readCount))
      ensures Logged(Now(), ids, claimedLog) && Logged(Now(), Range(old(cursor), old(Available(readCount))), newLog)
      ensures (old(groupReady) || create.Heard?) && claim.Heard? && read.Heard? && alive ==>
                && |claimedLog| == |ids| && |newLog| == old(Available(readCount))
                && cursor == old(cursor) + old(Available(readCount))
      ensures !alive ==> || Kills(create) || Kills(claim) || Kills(read)
                         || Crashed in claimedLog || Crashed in newLog
    {
      hide StreamGroup.Run, Placement.Run, Backed, KeepsOrders, ClockWorks, Available;
      KeepsOrdersUnchanged(store.rows);
      ids, claimedLog, newLog := [], [], [];
      if !groupReady {
        var ensured := EnsureGroup(create);
        if !ensured.Got? {
          return ensured.Errored?, [], [], [];
        }
        groupReady := true;
      }
      var claimed;
      claimed, ids, claimedLog := HandleClaimed(readCount, claim);
      if !claimed.Got? {
        return claimed.Errored?, ids, claimedLog, [];
      }
      ghost var (rows, before) := (store.rows, Now());
      var newest;
      newest, newLog := HandleNew(readCount, read);
      LoggedStays(before, Now(), ids, claimedLog);
      KeepsOrdersComposes(old(store.rows), rows, store.rows);
      alive := !newest.Died?;
    }

    /**
      The loop of `startOrderStreamConsumer`, for as many turns as it lives or until it is stopped. If it
      lives and all calls of its turns are answered, it has read on by its count in every turn, up to
      the end of the stream.
     */
    method Loop(readCount: nat, turns: nat, fates: nat -> TurnFates) returns (alive: bool, turn: nat)
      requires Consistent() && Now().batch == []
      modifies this`group, this`cursor, this`pending, this`dlq, this`groupReady, this`steps, this`witnesses, store
      ensures Consistent() && Now().batch == [] && store.Grows() && KeepsOrders(old(store.rows), store.rows)
      ensures Marked(old(Now()), Now())
      ensures turn <= turns && (alive ==> turn == turns)
      ensures alive && (forall k: nat :: k < turns ==> AllAnswered(fates(k))) ==>
                cursor == ReadOn(old(cursor), |entries|, readCount, turns)
    {
      hide StreamGroup.Run, Placement.Run, Backed, KeepsOrders, Mirrors, ClockWorks;
      KeepsOrdersUnchanged(store.rows);
      turn, alive := 0, true;
      while turn < turns && alive
        invariant Consistent() && Now().batch == [] && store.Grows() && KeepsOrders(old(store.rows), store.rows)
        invariant Marked(old(Now()), Now()) && turn <= turns
        invariant alive && (forall k: nat :: k < turn ==> AllAnswered(fates(k))) ==>
                    cursor == ReadOn(old(cursor), |entries|, readCount, turn)
      {
        ghost var rows := store.rows;
        var f := fates(turn);
        ghost var ids, claimedLog, newLog;
        alive, ids, claimedLog, newLog := Turn(readCount, f.create, f.claim, f.read);
        KeepsOrdersComposes(old(store.rows), rows, store.rows);
        turn := turn + 1;
      }
    }
  }

  predicate Kills(a: Fate) {
    a.Lost? && a.died
  }

  /** What becomes of the three calls a turn makes before it handles anything. */
  datatype TurnFates = TurnFates(create: Fate, claim: Fate, read: Fate)

  predicate AllAnswered(f: TurnFates) {
    f.create.Heard? && f.claim.Heard? && f.read.Heard?
  }

  /** The cursor after that many turns over a stream of n entries. */
  function ReadOn(cursor: nat, n: nat, readCount: nat, turns: nat): nat {
    if turns == 0 then cursor
    else
      var at := ReadOn(cursor, n, readCount, turns - 1);
      if at > n then at else if at + readCount <= n then at + readCount else n
  }

  /** With room for one entry per turn the end of the stream is reached. */
  lemma {:induction false} ReadsToTheEnd(cursor: nat, n: nat, readCount: nat, turns: nat)
    requires cursor <= n && readCount >= 1
    ensures cursor <= ReadOn(cursor, n, readCount, turns) <= n
    ensures turns >= n - cursor ==> ReadOn(cursor, n, readCount, turns) == n
    ensures turns < n - cursor ==> ReadOn(cursor, n, readCount, turns) >= cursor + turns
  {
    if turns > 0 {
      ReadsToTheEnd(cursor, n, readCount, turns - 1);
    }
  }

  lemma TurnedMeans(s: State, course: Course)
    requires s.batch != [] && Turned(s, course)
    ensures if course.handled.Crashed? then course.state.batch == []
            else course.state.batch == s.batch[1..] && course.state.phase.Ready?
  {
  }

  /** All that happened between two points of the past. */
  function Stretch(past: Past, past': Past): Witness {
    Witness(|past.history|, |past'.history|, past.published, past'.events, past'.published)
  }

  lemma StretchProves<M>(lib: Library, env: Env<M>, entry: Fields, past: Past, past': Past, before: Rows, rows: Rows)
    requires Later(past, past')
    requires var s := Placement.Run(Placement.Fresh(past.initial), past.history); s.Some? && s.value.rows == before
    requires var s := Placement.Run(Placement.Fresh(past'.initial), past'.history); s.Some? && s.value.rows == rows
    requires Processed(lib, env, entry, before, past.published, rows, past'.events, past'.published)
    ensures Proves(lib, env, entry, past', Stretch(past, past'))
  {
    hide Processed, Placement.Run;
    assert past'.history[..|past.history|] == past.history;
    assert past'.history[..|past'.history|] == past'.history;
  }

  lemma BackedIds<M>(lib: Library, env: Env<M>, entries: seq<Entry>, dlq: seq<DeadLetter>, past: Past,
                     witnesses: map<Id, Witness>, dead: set<Id>, processed: set<Id>, id: Id)
    requires Backed(lib, env, entries, dlq, past, witnesses, dead, processed) && id < |entries|
    ensures Trim(entries[id].id) != ""
  {
    hide Proves, HasLetter, IsEntry, Trim;
  }

  lemma LetterKeepsBacked<M>(lib: Library, env: Env<M>, entries: seq<Entry>, dlq: seq<DeadLetter>,
      dlq': seq<DeadLetter>,
                             past: Past, witnesses: map<Id, Witness>, dead: set<Id>, dead': set<Id>, processed: set<Id>,
                                 id: Id)
    requires Backed(lib, env, entries, dlq, past, witnesses, dead, processed) && id < |entries|
    requires || (dlq' == dlq && dead' == dead)
             || (|dlq'| == |dlq| + 1 && dlq'[..|dlq|] == dlq && dlq'[|dlq|].originalStreamId == entries[id].id &&
                 dead' == dead + {id})
    ensures Backed(lib, env, entries, dlq', past, witnesses, dead', processed)
  {
    hide Backed;
    if |dlq'| == |dlq| + 1 {
      assert dlq' == dlq + [dlq'[|dlq|]];
      BackedByLetter(lib, env, entries, dlq, past, witnesses, dead, processed, id, dlq'[|dlq|]);
    }
  }

  lemma CountHeard(maxAttempts: nat, s: State, a: Fate)
    requires s.batch != [] && (s.phase.Ready? || s.phase.Erring?) && a.Heard?
    ensures AfterCount(maxAttempts, s, a) == s
  {
  }
}
