/**
  The order stream and its consumer group under one serial consumer: at-least-once delivery with a
  bounded number of attempts. Entries are numbered in stream order. The Redis commands mean what
  Redis documents: a group created at "0" sees every entry, XREADGROUP makes an entry pending with
  delivery count 1, XAUTOCLAIM adds 1 to the count of entries it hands out, XACK removes the entry
  from the pending list. Each command is one step; its answer may be lost, and the consumer may
  crash before any step.
 */
module StreamGroup {
  import opened Wrappers
  import opened Text

  type Id = nat

  /** Where the consumer is with the first entry of its batch. */
  datatype Phase = Ready | Done | Erring | Burying | Built | Buried

  /**
    `cursor` counts the entries handed out as new and `pending` holds delivery counts. The rest is
    history: ids acknowledged, named by dead letters, processed without error; one item per delivery,
    one per fault that hit an entry on its way (an unanswered call or a death of the consumer), and
    one per dead letter that could not be built, which is no fault.
   */
  datatype State = State(
    entries: nat, group: bool, cursor: nat, pending: map<Id, nat>,
    acked: set<Id>, dead: set<Id>, processed: set<Id>, deliveries: seq<Id>, faults: seq<Id>, unbuilt: seq<Id>,
    batch: seq<Id>, phase: Phase)

  datatype Step =
    | Append
    | CreateGroup
    | Claim(ids: seq<Id>, heard: bool)
    | Read(count: nat, heard: bool)
    | Process
    | Fail
    | Invalid
    | Ack(heard: bool)
    | AckFails
    | Judge
    | Build(reason: string)
    | Bury(heard: bool)
    | Stumble
    | Crash

  function Empty(): State {
    State(0, false, 0, map[], {}, {}, {}, [], [], [], [], Ready)
  }

  predicate Distinct(ids: seq<Id>) {
    forall i, j :: 0 <= i < j < |ids| ==> ids[i] != ids[j]
  }

  /** The delivery count Redis reports; an entry that is not pending counts as delivered once. */
  function Attempts(s: State, id: Id): nat {
    if id in s.pending then s.pending[id] else 1
  }

  function Range(from: nat, count: nat): (ids: seq<Id>)
    ensures |ids| == count && forall i :: 0 <= i < count ==> ids[i] == from + i
  {
    seq(count, i => from + i)
  }

  predicate Enabled(s: State, step: Step) {
    match step
    case Append => true
    case CreateGroup => true
    case Claim(ids, _) => s.group && s.batch == [] && Distinct(ids) && forall i :: 0 <= i < |ids| ==>
        ids[i] in s.pending
    case Read(count, _) => s.group && s.batch == [] && s.cursor + count <= s.entries
    case Process => s.batch != [] && s.phase.Ready?
    case Fail => s.batch != [] && s.phase.Ready?
    case Invalid => s.batch != [] && s.phase.Ready?
    case Ack(_) => s.batch != [] && (s.phase.Done? || s.phase.Buried?)
    case AckFails => s.batch != [] && s.phase.Done?
    case Judge => s.batch != [] && s.phase.Erring?
    case Build(_) => s.batch != [] && s.phase.Burying?
    case Bury(_) => s.batch != [] && s.phase.Built?
    case Stumble => s.batch != [] && !s.phase.Done? && !s.phase.Burying?
    case Crash => true
  }

  /** Redis hands out ids; if the answer is lost, that is a fault of each of them. */
  function Deliver(s: State, ids: seq<Id>, pending: map<Id, nat>, heard: bool): State {
    s.(pending := pending, deliveries := s.deliveries + ids, faults := if heard then s.faults else s.faults + ids,
       batch := if heard then ids else [], phase := Ready)
  }

  /** The consumer turns to the next entry of its batch. */
  function Next(s: State): State
    requires s.batch != []
  {
    s.(batch := s.batch[1..], phase := Ready)
  }

  function Faulty(s: State): State
    requires s.batch != []
  {
    Next(s).(faults := s.faults + [s.batch[0]])
  }

  /** No letter can be built for a reason that is blank; the consumer gives up on the entry for now. */
  function WithoutLetter(s: State): State
    requires s.batch != []
  {
    Next(s).(unbuilt := s.unbuilt + [s.batch[0]])
  }

  function Restarted(s: State): State {
    s.(faults := s.faults + s.batch, batch := [], phase := Ready)
  }

  function Acknowledged(s: State): State
    requires s.batch != []
  {
    s.(pending := s.pending - {s.batch[0]},
        acked := if s.batch[0] in s.pending then s.acked + {s.batch[0]} else s.acked)
  }

  function Apply(maxAttempts: nat, s: State, step: Step): State
    requires Enabled(s, step)
  {
    match step
    case Append => s.(entries := s.entries + 1)
    case CreateGroup => s.(group := true)
    case Claim(ids, heard) =>
      Deliver(s, ids, map id | id in s.pending :: if id in ids then s.pending[id] + 1 else s.pending[id], heard)
    case Read(count, heard) =>
      var ids := Range(s.cursor, count);
      Deliver(s, ids, s.pending + map id | id in ids :: 1, heard).(cursor := s.cursor + count)
    case Process => s.(processed := s.processed + {s.batch[0]}, phase := Done)
    case Fail => s.(phase := Erring)
    case Invalid => s.(phase := Burying)
    case Ack(heard) =>
      if heard then Next(Acknowledged(s))
      else if s.phase.Done? then Acknowledged(s).(phase := Erring)
      else Faulty(Acknowledged(s))
    case AckFails => s.(phase := Erring)
    case Judge => if Attempts(s, s.batch[0]) >= maxAttempts then s.(phase := Burying) else Next(s)
    case Build(reason) => if Trim(reason) == "" then WithoutLetter(s) else s.(phase := Built)
    case Bury(heard) =>
      var t := s.(dead := s.dead + {s.batch[0]});
      if heard then t.(phase := Buried) else Faulty(t)
    case Stumble => Faulty(s)
    case Crash => Restarted(s)
  }

  // What single steps do, for callers that need not know about the others.

  lemma CrashDoes(maxAttempts: nat, s: State)
    ensures Enabled(s, Crash) && Apply(maxAttempts, s, Crash) == Restarted(s)
  {
  }

  lemma StumbleDoes(maxAttempts: nat, s: State)
    requires s.batch != [] && !s.phase.Done? && !s.phase.Burying?
    ensures Enabled(s, Stumble) && Apply(maxAttempts, s, Stumble) == Faulty(s)
  {
  }

  lemma AckDoes(maxAttempts: nat, s: State, heard: bool)
    requires s.batch != [] && (s.phase.Done? || s.phase.Buried?)
    ensures Enabled(s, Ack(heard)) &&
            Apply(maxAttempts, s, Ack(heard)) ==
              if heard then Next(Acknowledged(s))
              else if s.phase.Done? then Acknowledged(s).(phase := Erring)
              else Faulty(Acknowledged(s))
    ensures s.phase.Done? ==> Enabled(s, AckFails) && Apply(maxAttempts, s, AckFails) == s.(phase := Erring)
  {
  }

  lemma BuildDoes(maxAttempts: nat, s: State, reason: string)
    requires s.batch != [] && s.phase.Burying?
    ensures Enabled(s, Build(reason)) &&
            Apply(maxAttempts, s, Build(reason)) == if Trim(reason) == "" then WithoutLetter(s) else s.(phase := Built)
  {
    hide Trim;
  }

  lemma BuryDoes(maxAttempts: nat, s: State, heard: bool)
    requires s.batch != [] && s.phase.Built?
    ensures var t := s.(dead := s.dead + {s.batch[0]});
            Enabled(s, Bury(heard)) &&
            Apply(maxAttempts, s, Bury(heard)) == if heard then t.(phase := Buried) else Faulty(t)
  {
  }

  lemma JudgeDoes(maxAttempts: nat, s: State)
    requires s.batch != [] && s.phase.Erring?
    ensures Enabled(s, Judge) &&
            Apply(maxAttempts, s, Judge) ==
              if Attempts(s, s.batch[0]) >= maxAttempts then s.(phase := Burying) else Next(s)
  {
  }

  lemma HandlingDoes(maxAttempts: nat, s: State)
    requires s.batch != [] && s.phase.Ready?
    ensures Enabled(s, Process) &&
            Apply(maxAttempts, s, Process) == s.(processed := s.processed + {s.batch[0]}, phase := Done)
    ensures Enabled(s, Fail) && Apply(maxAttempts, s, Fail) == s.(phase := Erring)
    ensures Enabled(s, Invalid) && Apply(maxAttempts, s, Invalid) == s.(phase := Burying)
  {
  }

  function Run(maxAttempts: nat, steps: seq<Step>): Option<State> {
    if steps == [] then Some(Empty())
    else
      var before := Run(maxAttempts, steps[..|steps| - 1]);
      if before.Some? && Enabled(before.value, steps[|steps| - 1])
      then Some(Apply(maxAttempts, before.value, steps[|steps| - 1])) else None
  }

  lemma RunExtends(maxAttempts: nat, steps: seq<Step>, step: Step)
    requires Run(maxAttempts, steps).Some? && Enabled(Run(maxAttempts, steps).value, step)
    ensures Run(maxAttempts, steps + [step]) == Some(Apply(maxAttempts, Run(maxAttempts, steps).value, step))
  {
    hide Apply, Enabled;
    assert (steps + [step])[..|steps|] == steps;
  }

  // ---------- no entry is lost ----------

  /** Every entry is not yet delivered, pending, or acknowledged; acknowledged ones were dealt with. */
  ghost predicate Kept(s: State) {
    && s.cursor <= s.entries
    && (forall id: Id :: id < s.cursor <==> id in s.pending || id in s.acked)
    && (forall id: Id :: !(id in s.pending && id in s.acked))
    && (forall id: Id :: id in s.acked ==> id in s.processed || id in s.dead)
  }

  /** What the consumer holds has been delivered, and the phase says what has happened to the first of it. */
  ghost predicate Held(s: State) {
    && Distinct(s.batch)
    && (s.batch == [] ==> s.phase.Ready?)
    && (forall i :: 0 <= i < |s.batch| ==> s.batch[i] < s.cursor)
    && (forall i :: 1 <= i < |s.batch| ==> s.batch[i] in s.pending)
    && (s.batch != [] && (s.phase.Ready? || s.phase.Done?) ==> s.batch[0] in s.pending)
    && (s.batch != [] && s.phase.Done? ==> s.batch[0] in s.processed)
    && (s.batch != [] && s.phase.Buried? ==> s.batch[0] in s.dead)
  }

  predicate Delivers(step: Step) {
    step.Claim? || step.Read?
  }

  lemma DeliveryKeepsHeld(maxAttempts: nat, s: State, step: Step)
    requires Kept(s) && Held(s) && Enabled(s, step) && Delivers(step)
    ensures Kept(Apply(maxAttempts, s, step)) && Held(Apply(maxAttempts, s, step))
  {
    var t := Apply(maxAttempts, s, step);
    if step.Read? {
      var ids := Range(s.cursor, step.count);
      forall id: Id
        ensures id in t.pending <==> id in s.pending || s.cursor <= id < t.cursor
      {
        if s.cursor <= id < t.cursor {
          assert ids[id - s.cursor] == id;
        }
      }
    } else {
      assert t.pending.Keys == s.pending.Keys;
    }
  }

  /** What remains true of the batch once its first entry has been acknowledged. */
  ghost predicate TailHeld(s: State) {
    && s.batch != [] && Distinct(s.batch)
    && (forall i :: 0 <= i < |s.batch| ==> s.batch[i] < s.cursor)
    && (forall i :: 1 <= i < |s.batch| ==> s.batch[i] in s.pending)
  }

  lemma NextKeepsHeld(s: State)
    requires Kept(s) && TailHeld(s)
    ensures Kept(Next(s)) && Held(Next(s)) && Kept(Faulty(s)) && Held(Faulty(s))
    ensures Kept(WithoutLetter(s)) && Held(WithoutLetter(s))
  {
  }

  lemma AcknowledgeKeepsHeld(s: State)
    requires Kept(s) && Held(s) && s.batch != [] && (s.phase.Done? || s.phase.Buried?)
    ensures Kept(Acknowledged(s)) && TailHeld(Acknowledged(s))
  {
  }

  lemma {:induction false} OtherStepKeepsHeld(maxAttempts: nat, s: State, step: Step)
    requires Kept(s) && Held(s) && Enabled(s, step) && !Delivers(step)
    ensures Kept(Apply(maxAttempts, s, step)) && Held(Apply(maxAttempts, s, step))
  {
    if step.Ack? || step.AckFails? {
      AckKeepsHeld(maxAttempts, s, step);
    } else if step.Judge? || step.Build? || step.Bury? || step.Stumble? {
      hide Trim;
      FailureKeepsHeld(maxAttempts, s, step);
    }
  }

  lemma AckKeepsHeld(maxAttempts: nat, s: State, step: Step)
    requires Kept(s) && Held(s) && Enabled(s, step) && (step.Ack? || step.AckFails?)
    ensures Kept(Apply(maxAttempts, s, step)) && Held(Apply(maxAttempts, s, step))
  {
    if step.Ack? {
      AcknowledgeKeepsHeld(s);
      NextKeepsHeld(Acknowledged(s));
      hide Acknowledged, Next, Faulty;
    }
  }

  lemma BuryKeepsHeld(s: State)
    requires Kept(s) && Held(s) && s.batch != [] && s.phase.Built?
    ensures var t := s.(dead := s.dead + {s.batch[0]}); Kept(t) && TailHeld(t) && Held(t.(phase := Buried))
  {
  }

  lemma KeptIgnoresPhase(s: State, phase: Phase)
    requires Kept(s)
    ensures Kept(s.(phase := phase))
  {
  }

  lemma FailureKeepsHeld(maxAttempts: nat, s: State, step: Step)
    requires Kept(s) && Held(s) && Enabled(s, step) && (step.Judge? || step.Build? || step.Bury? || step.Stumble?)
    ensures Kept(Apply(maxAttempts, s, step)) && Held(Apply(maxAttempts, s, step))
  {
    assert TailHeld(s);
    assert step.Judge? ==> Held(s.(phase := Burying));
    assert step.Build? ==> Held(s.(phase := Built));
    hide Next, Faulty, WithoutLetter, Attempts, Kept, Held, TailHeld, Trim;
    NextKeepsHeld(s);
    if step.Bury? {
      BuryKeepsHeld(s);
      NextKeepsHeld(s.(dead := s.dead + {s.batch[0]}));
      KeptIgnoresPhase(s.(dead := s.dead + {s.batch[0]}), Buried);
    } else {
      KeptIgnoresPhase(s, Burying);
      KeptIgnoresPhase(s, Built);
    }
  }

  function Count(log: seq<Id>, id: Id): nat {
    multiset(log)[id]
  }

  lemma {:induction false} CountOfDistinct(ids: seq<Id>, id: Id)
    requires Distinct(ids)
    ensures Count(ids, id) == if id in ids then 1 else 0
  {
    if ids != [] {
      var n := |ids| - 1;
      CountOfDistinct(ids[..n], id);
      assert ids == ids[..n] + [ids[n]];
    }
  }

  lemma CountOfSum(log: seq<Id>, more: seq<Id>, id: Id)
    ensures Count(log + more, id) == Count(log, id) + Count(more, id)
  {
  }

  /** How one step changes the counts: deliveries and faults are added once each for the ids concerned. */
  lemma CountsAfter(s: State, ids: seq<Id>, id: Id)
    requires Distinct(ids)
    ensures Count(s.deliveries + ids, id) == Count(s.deliveries, id) + (if id in ids then 1 else 0)
    ensures Count(s.faults + ids, id) == Count(s.faults, id) + (if id in ids then 1 else 0)
    ensures Count(s.unbuilt + ids, id) == Count(s.unbuilt, id) + (if id in ids then 1 else 0)
  {
    hide Distinct, Count;
    CountOfDistinct(ids, id);
    CountOfSum(s.deliveries, ids, id);
    CountOfSum(s.faults, ids, id);
    CountOfSum(s.unbuilt, ids, id);
  }

  function Bound(maxAttempts: nat): nat {
    if maxAttempts == 0 then 1 else maxAttempts
  }

  /** Faults of an entry and letters that could not be built for it: each allows one delivery more. */
  function Excuses(s: State, id: Id): nat {
    Count(s.faults, id) + Count(s.unbuilt, id)
  }

  /**
    The pending list counts deliveries. An entry has been delivered at most the allowed number of
    times plus once per excuse, and a pending entry the consumer does not hold can still be delivered once.
   */
  ghost predicate Counted(maxAttempts: nat, s: State) {
    && (forall id: Id :: id in s.pending ==> s.pending[id] == Count(s.deliveries, id))
    && (forall id: Id :: id >= s.cursor ==> Count(s.deliveries, id) == 0)
    && (forall id: Id :: Count(s.deliveries, id) <= Bound(maxAttempts) + Excuses(s, id))
    && (forall id: Id :: id in s.pending && id !in s.batch ==>
                     Count(s.deliveries, id) + 1 <= Bound(maxAttempts) + Excuses(s, id))
  }

  lemma DeliveryKeepsCounted(maxAttempts: nat, s: State, step: Step)
    requires Kept(s) && Held(s) && Counted(maxAttempts, s) && Enabled(s, step) && Delivers(step)
    ensures Counted(maxAttempts, Apply(maxAttempts, s, step))
  {
    hide Count, Held;
    var ids := if step.Read? then Range(s.cursor, step.count) else step.ids;
    assert Distinct(ids);
    forall id: Id
      ensures Count(s.deliveries + ids, id) == Count(s.deliveries, id) + (if id in ids then 1 else 0)
      ensures Count(s.faults + ids, id) == Count(s.faults, id) + (if id in ids then 1 else 0)
    {
      CountsAfter(s, ids, id);
    }
    if step.Read? {
      FreshIdsAreNew(s, ids, step.count);
    }
  }

  lemma FreshIdsAreNew(s: State, ids: seq<Id>, count: nat)
    requires Kept(s) && ids == Range(s.cursor, count)
    ensures forall id: Id :: id in ids <==> s.cursor <= id < s.cursor + count
    ensures forall id: Id :: id in ids ==> id !in s.pending
  {
    forall id: Id | s.cursor <= id < s.cursor + count
      ensures id in ids
    {
      assert ids[id - s.cursor] == id;
    }
  }

  lemma NextKeepsCounted(maxAttempts: nat, s: State)
    requires s.batch != [] && Counted(maxAttempts, s)
    ensures Counted(maxAttempts, Faulty(s)) && Counted(maxAttempts, WithoutLetter(s))
    ensures s.batch[0] !in s.pending || Count(s.deliveries, s.batch[0]) < Bound(maxAttempts) ==>
        Counted(maxAttempts, Next(s))
  {
    hide Count, Bound;
    assert forall id: Id :: id in s.batch ==> id == s.batch[0] || id in s.batch[1..];
    forall id: Id
      ensures Count(s.faults + [s.batch[0]], id) == Count(s.faults, id) + (if id == s.batch[0] then 1 else 0)
      ensures Count(s.unbuilt + [s.batch[0]], id) == Count(s.unbuilt, id) + (if id == s.batch[0] then 1 else 0)
    {
      CountsAfter(s, [s.batch[0]], id);
    }
  }

  lemma CrashKeepsCounted(maxAttempts: nat, s: State)
    requires Distinct(s.batch) && Counted(maxAttempts, s)
    ensures Counted(maxAttempts, Apply(maxAttempts, s, Crash))
  {
    hide Count, Bound;
    forall id: Id
      ensures Count(s.faults + s.batch, id) == Count(s.faults, id) + (if id in s.batch then 1 else 0)
    {
      CountsAfter(s, s.batch, id);
    }
  }

  /** The history that the counts do not look at may change. */
  lemma CountedIgnores(maxAttempts: nat, s: State, t: State)
    requires Counted(maxAttempts, s) && t.pending == s.pending && t.cursor == s.cursor && t.batch == s.batch
    requires t.deliveries == s.deliveries && t.faults == s.faults && t.unbuilt == s.unbuilt
    ensures Counted(maxAttempts, t)
  {
  }

  lemma AcknowledgeKeepsCounted(maxAttempts: nat, s: State)
    requires s.batch != [] && Counted(maxAttempts, s)
    ensures Counted(maxAttempts, Acknowledged(s))
  {
    hide Count, Bound;
  }

  /** The consumer gives up on an entry only while the pending list counts fewer attempts than allowed. */
  lemma JudgeKeepsCounted(maxAttempts: nat, s: State)
    requires s.batch != [] && s.phase.Erring? && Counted(maxAttempts, s)
    ensures Counted(maxAttempts, Apply(maxAttempts, s, Judge))
  {
    NextKeepsCounted(maxAttempts, s);
    CountedIgnores(maxAttempts, s, s.(phase := Burying));
    assert s.batch[0] in s.pending ==> s.pending[s.batch[0]] == Count(s.deliveries, s.batch[0]);
    hide Counted, Next, Count;
  }

  lemma {:induction false} OtherStepKeepsCounted(maxAttempts: nat, s: State, step: Step)
    requires Kept(s) && Held(s) && Counted(maxAttempts, s) && Enabled(s, step) && !Delivers(step)
    ensures Counted(maxAttempts, Apply(maxAttempts, s, step))
  {
    hide Kept, Counted, Faulty, WithoutLetter, Next, Acknowledged, Trim;
    if step.Crash? {
      CrashKeepsCounted(maxAttempts, s);
    } else if step.Judge? {
      JudgeKeepsCounted(maxAttempts, s);
    } else if step.Ack? {
      AcknowledgeKeepsCounted(maxAttempts, s);
      AckKeepsCounted(maxAttempts, s);
    } else if step.Bury? {
      var t := s.(dead := s.dead + {s.batch[0]});
      CountedIgnores(maxAttempts, s, t);
      CountedIgnores(maxAttempts, s, t.(phase := Buried));
      NextKeepsCounted(maxAttempts, t);
    } else if step.Stumble? {
      NextKeepsCounted(maxAttempts, s);
    } else if step.Build? {
      NextKeepsCounted(maxAttempts, s);
      CountedIgnores(maxAttempts, s, s.(phase := Built));
    } else {
      CountedIgnores(maxAttempts, s, Apply(maxAttempts, s, step));
    }
  }

  lemma AckKeepsCounted(maxAttempts: nat, s: State)
    requires s.batch != [] && Counted(maxAttempts, s)
    ensures var t := Acknowledged(s);
            Counted(maxAttempts, Next(t)) && Counted(maxAttempts, Faulty(t))
                && Counted(maxAttempts, t.(phase := Erring))
  {
    AcknowledgeKeepsCounted(maxAttempts, s);
    CountedIgnores(maxAttempts, Acknowledged(s), Acknowledged(s).(phase := Erring));
    hide Counted, Next, Faulty;
    NextKeepsCounted(maxAttempts, Acknowledged(s));
  }

  // ---------- every run ----------

  lemma EmptyIsSound(maxAttempts: nat)
    ensures Kept(Empty()) && Held(Empty()) && Counted(maxAttempts, Empty())
  {
  }

  lemma {:induction false} RunsAreSound(maxAttempts: nat, steps: seq<Step>)
    requires Run(maxAttempts, steps).Some?
    ensures var s := Run(maxAttempts, steps).value; Kept(s) && Held(s) && Counted(maxAttempts, s)
  {
    if steps == [] {
      EmptyIsSound(maxAttempts);
    } else {
      var n := |steps| - 1;
      RunsAreSound(maxAttempts, steps[..n]);
      var (s, step) := (Run(maxAttempts, steps[..n]).value, steps[n]);
      hide Kept, Held, Counted, Apply, Enabled;
      if Delivers(step) {
        DeliveryKeepsHeld(maxAttempts, s, step);
        DeliveryKeepsCounted(maxAttempts, s, step);
      } else {
        OtherStepKeepsHeld(maxAttempts, s, step);
        OtherStepKeepsCounted(maxAttempts, s, step);
      }
    }
  }

  /**
    In every run each appended entry, whenever it was appended, is in exactly one place: not yet
    delivered, pending, or acknowledged; and it is acknowledged only after its command was processed
    without error or a dead letter naming it was written.
   */
  lemma NothingIsLost(maxAttempts: nat, steps: seq<Step>, id: Id)
    requires Run(maxAttempts, steps).Some? && id < Run(maxAttempts, steps).value.entries
    ensures var s := Run(maxAttempts, steps).value;
            && (id >= s.cursor ==> id !in s.pending && id !in s.acked)
            && (id < s.cursor ==> (id in s.pending <==> id !in s.acked))
            && (id in s.acked ==> id in s.processed || id in s.dead)
  {
    RunsAreSound(maxAttempts, steps);
  }

  /**
    No entry is delivered more often than allowed, plus once per fault it met and per letter that
    could not be built.
   */
  lemma {:induction false} DeliveriesAreBounded(maxAttempts: nat, steps: seq<Step>, id: Id)
    requires Run(maxAttempts, steps).Some?
    ensures var s := Run(maxAttempts, steps).value;
            Count(s.deliveries, id) <= Bound(maxAttempts) + Count(s.faults, id) + Count(s.unbuilt, id)
  {
    RunsAreSound(maxAttempts, steps);
  }
}
