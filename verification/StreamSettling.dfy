/**
  That a stream which stops growing is settled: the attempts left to its unsettled entries are used
  up by fault-free delivery, and while an entry is unsettled there is something to deliver.
 */
module StreamSettling {
  import opened Text
  import opened StreamGroup

  predicate Settled(s: State, id: Id) {
    id in s.acked
  }

  /** The entries below n that are not settled. */
  function Unsettled(s: State, n: nat): nat {
    if n == 0 then 0 else Unsettled(s, n - 1) + if Settled(s, n - 1) then 0 else 1
  }

  /** How many deliveries an entry has left. */
  function LeftOf(maxAttempts: nat, s: State, id: Id): int {
    if Settled(s, id) then 0 else Bound(maxAttempts) + Excuses(s, id) - Count(s.deliveries, id)
  }

  function LeftBelow(maxAttempts: nat, s: State, n: nat): int {
    if n == 0 then 0 else LeftBelow(maxAttempts, s, n - 1) + LeftOf(maxAttempts, s, n - 1)
  }

  /** The deliveries left to the unsettled entries of the stream. */
  function Remaining(maxAttempts: nat, s: State): int {
    LeftBelow(maxAttempts, s, s.entries)
  }

  // ---------- sums over entries ----------

  /** How often the entries below n occur in a log. */
  function Total(log: seq<Id>, n: nat): nat {
    if n == 0 then 0 else Total(log, n - 1) + Count(log, n - 1)
  }

  lemma {:induction false} TotalOfAppend(log: seq<Id>, id: Id, n: nat)
    ensures Total(log + [id], n) == Total(log, n) + if id < n then 1 else 0
  {
    if n > 0 {
      TotalOfAppend(log, id, n - 1);
    }
  }

  lemma {:induction false} TotalIsLength(log: seq<Id>, n: nat)
    requires forall i :: 0 <= i < |log| ==> log[i] < n
    ensures Total(log, n) == |log|
  {
    if log == [] {
      NothingTotals(n);
    } else {
      var k := |log| - 1;
      TotalIsLength(log[..k], n);
      TotalOfAppend(log[..k], log[k], n);
      assert log == log[..k] + [log[k]];
    }
  }

  lemma {:induction false} NothingTotals(n: nat)
    ensures Total([], n) == 0
  {
    if n > 0 {
      NothingTotals(n - 1);
    }
  }

  /** If each entry has used up what the log says, so has the sum. */
  lemma {:induction false} LeftUsedUp(maxAttempts: nat, s: State, t: State, log: seq<Id>, n: nat)
    requires forall id: Id :: id < n ==> LeftOf(maxAttempts, t, id) == LeftOf(maxAttempts, s, id) - Count(log, id)
    ensures LeftBelow(maxAttempts, t, n) == LeftBelow(maxAttempts, s, n) - Total(log, n)
  {
    hide LeftOf, Count;
    if n > 0 {
      LeftUsedUp(maxAttempts, s, t, log, n - 1);
    }
  }

  /** If one entry is settled and nothing else changes, the sum falls by what that entry had left. */
  lemma {:induction false} LeftSettled(maxAttempts: nat, s: State, t: State, head: Id, n: nat)
    requires forall id: Id :: id < n ==>
               LeftOf(maxAttempts, t, id) == if id == head then 0 else LeftOf(maxAttempts, s, id)
    ensures LeftBelow(maxAttempts, t, n) ==
        LeftBelow(maxAttempts, s, n) - if head < n then LeftOf(maxAttempts, s, head) else 0
  {
    hide LeftOf;
    if n > 0 {
      LeftSettled(maxAttempts, s, t, head, n - 1);
    }
  }

  // ---------- what is left and what is unsettled ----------

  lemma LeftIsNatural(maxAttempts: nat, s: State, id: Id)
    requires Kept(s) && Counted(maxAttempts, s)
    ensures LeftOf(maxAttempts, s, id) >= 0
    ensures s.batch == [] && id < s.entries && !Settled(s, id) ==> LeftOf(maxAttempts, s, id) >= 1
  {
    hide Count;
  }

  lemma {:induction false} LeftCoversUnsettled(maxAttempts: nat, s: State, n: nat)
    requires Kept(s) && Counted(maxAttempts, s) && n <= s.entries
    ensures LeftBelow(maxAttempts, s, n) >= 0
    ensures s.batch == [] ==> LeftBelow(maxAttempts, s, n) >= Unsettled(s, n)
    ensures Unsettled(s, n) == 0 ==> LeftBelow(maxAttempts, s, n) == 0
  {
    if n > 0 {
      LeftCoversUnsettled(maxAttempts, s, n - 1);
      LeftIsNatural(maxAttempts, s, n - 1);
      hide Kept, Counted, Count, Excuses, Bound;
    }
  }

  /**
    What is left is never negative, and between batches there is at least one delivery left for every
    unsettled entry; so nothing is left exactly when everything is settled.
   */
  lemma {:induction false} RemainingCoversUnsettled(maxAttempts: nat, steps: seq<Step>)
    requires Run(maxAttempts, steps).Some?
    ensures var s := Run(maxAttempts, steps).value;
            && Remaining(maxAttempts, s) >= 0
            && (s.batch == [] ==> Unsettled(s, s.entries) <= Remaining(maxAttempts, s))
            && (s.batch == [] ==> (Remaining(maxAttempts, s) == 0 <==> Unsettled(s, s.entries) == 0))
  {
    hide Kept, Held, Counted, Run, Unsettled, LeftBelow;
    RunsAreSound(maxAttempts, steps);
    LeftCoversUnsettled(maxAttempts, Run(maxAttempts, steps).value, Run(maxAttempts, steps).value.entries);
  }

  // ---------- using it up ----------

  /**
    Nothing is appended, no answer is lost, the consumer lives, and every letter can be built.
    Processing and acknowledging may still throw.
   */
  predicate FaultFree(step: Step) {
    match step
    case Append => false
    case Stumble => false
    case Crash => false
    case Claim(_, heard) => heard
    case Read(_, heard) => heard
    case Ack(heard) => heard
    case Bury(heard) => heard
    case Build(reason) => Trim(reason) != ""
    case _ => true
  }

  function DeliveredIds(s: State, step: Step): seq<Id> {
    match step
    case Claim(ids, _) => ids
    case Read(count, _) => Range(s.cursor, count)
    case _ => []
  }

  function Delivered(step: Step): nat {
    match step
    case Claim(ids, _) => |ids|
    case Read(count, _) => count
    case _ => 0
  }

  lemma DeliveryUsesUp(maxAttempts: nat, s: State, step: Step, id: Id)
    requires Kept(s) && Enabled(s, step) && FaultFree(step) && Delivers(step)
    ensures LeftOf(maxAttempts, Apply(maxAttempts, s, step), id) ==
            LeftOf(maxAttempts, s, id) - Count(DeliveredIds(s, step), id)
  {
    hide Count, Bound, Trim;
    var ids := DeliveredIds(s, step);
    CountOfSum(s.deliveries, ids, id);
    CountOfDistinct(ids, id);
    if step.Read? {
      FreshIdsAreNew(s, ids, step.count);
    }
  }

  lemma OtherStepsUseNothing(maxAttempts: nat, s: State, step: Step, id: Id)
    requires Enabled(s, step) && FaultFree(step) && !Delivers(step)
    ensures LeftOf(maxAttempts, Apply(maxAttempts, s, step), id) ==
            if step.Ack? && s.batch[0] in s.pending && id == s.batch[0] then 0 else LeftOf(maxAttempts, s, id)
  {
    hide Count, Bound, Trim;
  }

  /**
    Without faults and new entries each delivery uses up as much as it hands out, an acknowledgement
    settles what its entry had left, and no other step changes what is left.
   */
  lemma {:induction false} RemainingDecreases(maxAttempts: nat, steps: seq<Step>, step: Step)
    requires Run(maxAttempts, steps).Some? && Enabled(Run(maxAttempts, steps).value, step) && FaultFree(step)
    ensures var s := Run(maxAttempts, steps).value;
            var t := Apply(maxAttempts, s, step);
            && Remaining(maxAttempts, t) == Remaining(maxAttempts, s) - Delivered(step) -
                 (if step.Ack? && s.batch[0] in s.pending then LeftOf(maxAttempts, s, s.batch[0]) else 0)
            && Remaining(maxAttempts, t) <= Remaining(maxAttempts, s) - Delivered(step)
  {
    hide Run, LeftOf, LeftBelow, Held, Counted, Count;
    var s := Run(maxAttempts, steps).value;
    RunsAreSound(maxAttempts, steps);
    var t := Apply(maxAttempts, s, step);
    if Delivers(step) {
      forall id: Id
        ensures LeftOf(maxAttempts, t, id) == LeftOf(maxAttempts, s, id) - Count(DeliveredIds(s, step), id)
      {
        DeliveryUsesUp(maxAttempts, s, step, id);
      }
      DeliveredAreEntries(s, step);
      LeftUsedUp(maxAttempts, s, t, DeliveredIds(s, step), s.entries);
      TotalIsLength(DeliveredIds(s, step), s.entries);
    } else {
      SettlingUsesUp(maxAttempts, s, step);
    }
  }

  lemma DeliveredAreEntries(s: State, step: Step)
    requires Kept(s) && Enabled(s, step) && Delivers(step)
    ensures |DeliveredIds(s, step)| == Delivered(step)
    ensures forall i :: 0 <= i < Delivered(step) ==> DeliveredIds(s, step)[i] < s.entries
  {
  }

  lemma SettlingUsesUp(maxAttempts: nat, s: State, step: Step)
    requires Kept(s) && Held(s) && Counted(maxAttempts, s) && Enabled(s, step) && FaultFree(step) && !Delivers(step)
    ensures var t := Apply(maxAttempts, s, step);
            && Remaining(maxAttempts, t) == Remaining(maxAttempts, s) -
                 (if step.Ack? && s.batch[0] in s.pending then LeftOf(maxAttempts, s, s.batch[0]) else 0)
            && Remaining(maxAttempts, t) <= Remaining(maxAttempts, s)
  {
    hide LeftOf, LeftBelow, Count;
    var t := Apply(maxAttempts, s, step);
    assert t.entries == s.entries;
    var settles := step.Ack? && s.batch[0] in s.pending;
    var head := if settles then s.batch[0] else s.entries;
    forall id: Id | id < s.entries
      ensures LeftOf(maxAttempts, t, id) == if id == head then 0 else LeftOf(maxAttempts, s, id)
    {
      OtherStepsUseNothing(maxAttempts, s, step, id);
    }
    LeftSettled(maxAttempts, s, t, head, s.entries);
    LeftIsNatural(maxAttempts, s, head);
  }

  function AllDelivered(steps: seq<Step>): nat {
    if steps == [] then 0 else AllDelivered(steps[..|steps| - 1]) + Delivered(steps[|steps| - 1])
  }

  lemma {:induction false} RemainingAfter(maxAttempts: nat, steps: seq<Step>, more: seq<Step>)
    requires Run(maxAttempts, steps + more).Some? && forall i :: 0 <= i < |more| ==> FaultFree(more[i])
    ensures Run(maxAttempts, steps).Some?
    ensures Remaining(maxAttempts, Run(maxAttempts, steps + more).value) <=
            Remaining(maxAttempts, Run(maxAttempts, steps).value) - AllDelivered(more)
  {
    hide Apply, Enabled, Remaining, FaultFree;
    if more == [] {
      assert steps + more == steps;
    } else {
      var n := |more| - 1;
      assert (steps + more)[..|steps| + n] == steps + more[..n];
      RemainingAfter(maxAttempts, steps, more[..n]);
      RemainingDecreases(maxAttempts, steps + more[..n], more[n]);
    }
  }

  // ---------- settling ----------

  /** While an entry is unsettled an idle consumer of an existing group can deliver one. */
  lemma {:induction false} SomethingToDeliver(maxAttempts: nat, steps: seq<Step>, id: Id) returns (step: Step)
    requires Run(maxAttempts, steps).Some?
    requires var s := Run(maxAttempts, steps).value; s.batch == [] && s.group && id < s.entries && !Settled(s, id)
    ensures Enabled(Run(maxAttempts, steps).value, step) && FaultFree(step) && Delivers(step) && Delivered(step) == 1
  {
    RunsAreSound(maxAttempts, steps);
    var s := Run(maxAttempts, steps).value;
    step := if s.cursor < s.entries then Read(1, true) else Claim([id], true);
  }

  lemma {:induction false} SomeUnsettled(s: State, n: nat) returns (id: Id)
    requires Unsettled(s, n) > 0
    ensures id < n && !Settled(s, id)
  {
    if Settled(s, n - 1) {
      id := SomeUnsettled(s, n - 1);
    } else {
      id := n - 1;
    }
  }

  /** The consumer is between batches of an existing group, and neither reading nor claiming would give it anything. */
  ghost predicate Stuck(s: State) {
    s.batch == [] && s.group && forall step :: Delivers(step) && FaultFree(step) && Enabled(s, step) ==>
        Delivered(step) == 0
  }

  lemma {:induction false} StuckMeansSettled(maxAttempts: nat, steps: seq<Step>)
    requires Run(maxAttempts, steps).Some? && Stuck(Run(maxAttempts, steps).value)
    ensures var s := Run(maxAttempts, steps).value; Unsettled(s, s.entries) == 0
  {
    hide Run, Enabled, FaultFree;
    var s := Run(maxAttempts, steps).value;
    if Unsettled(s, s.entries) > 0 {
      var id := SomeUnsettled(s, s.entries);
      var step := SomethingToDeliver(maxAttempts, steps, id);
    }
  }

  /**
    From any point of any run on, once nothing is appended and nothing fails: no continuation delivers
    more than the unsettled entries have left, whatever way it goes; between batches everything is
    settled exactly when nothing is left; and a continuation that cannot deliver any more has settled
    everything.
   */
  lemma {:induction false} FaultFreeRunsSettle(maxAttempts: nat, steps: seq<Step>, more: seq<Step>)
    requires Run(maxAttempts, steps + more).Some? && forall i :: 0 <= i < |more| ==> FaultFree(more[i])
    ensures Run(maxAttempts, steps).Some?
    ensures var (s, t) := (Run(maxAttempts, steps).value, Run(maxAttempts, steps + more).value);
            && AllDelivered(more) <= Remaining(maxAttempts, s) - Remaining(maxAttempts, t) <= Remaining(maxAttempts, s)
            && (t.batch == [] ==> (Unsettled(t, t.entries) == 0 <==> Remaining(maxAttempts, t) == 0))
            && (Stuck(t) ==> Unsettled(t, t.entries) == 0)
  {
    hide Run, Remaining, Unsettled, AllDelivered, Stuck;
    RemainingAfter(maxAttempts, steps, more);
    RemainingCoversUnsettled(maxAttempts, steps + more);
    if Stuck(Run(maxAttempts, steps + more).value) {
      StuckMeansSettled(maxAttempts, steps + more);
    }
  }

  /** What is settled stays settled, and is not delivered again. */
  lemma {:induction false} SettledIsFinal(maxAttempts: nat, steps: seq<Step>, step: Step, id: Id)
    requires Run(maxAttempts, steps).Some?
    requires var s := Run(maxAttempts, steps).value; Settled(s, id) && Enabled(s, step)
    ensures var (s, t) := (Run(maxAttempts, steps).value, Apply(maxAttempts, Run(maxAttempts, steps).value, step));
            Settled(t, id) && Count(t.deliveries, id) == Count(s.deliveries, id)
  {
    RunsAreSound(maxAttempts, steps);
    var s := Run(maxAttempts, steps).value;
    hide Counted, Run, Held, Attempts, Trim;
    if Delivers(step) {
      var ids := if step.Read? then Range(s.cursor, step.count) else step.ids;
      assert id !in ids;
      CountOfSum(s.deliveries, ids, id);
    }
  }
}
