/**
  When the limit on attempts holds. The text of the error decides: a reason of nothing but white
  space cannot be put into a dead letter, and its entry is delivered again and again.
 */
module StreamLimits {
  import opened Wrappers
  import opened Text
  import opened StreamGroup

  /** Every letter of the run is built for the reason that its entry's errors give. */
  ghost predicate Uses(maxAttempts: nat, steps: seq<Step>, reasons: Id -> string)
    requires Run(maxAttempts, steps).Some?
  {
    steps != [] ==>
      var n := |steps| - 1;
      && Uses(maxAttempts, steps[..n], reasons)
      && (steps[n].Build? ==> steps[n].reason == reasons(Run(maxAttempts, steps[..n]).value.batch[0]))
  }

  /** An entry is delivered at most the allowed number of times plus once per fault it met. */
  predicate WithinLimit(maxAttempts: nat, s: State, id: Id) {
    Count(s.deliveries, id) <= Bound(maxAttempts) + Count(s.faults, id)
  }

  // ---------- reasons that can be written ----------

  lemma OnlyBlankReasonsAreUnbuilt(maxAttempts: nat, s: State, step: Step, id: Id)
    requires Enabled(s, step) && Count(s.unbuilt, id) == 0
    requires step.Build? && s.batch[0] == id ==> Trim(step.reason) != ""
    ensures Count(Apply(maxAttempts, s, step).unbuilt, id) == 0
  {
    hide Trim;
  }

  lemma {:induction false} PrintableIsNeverUnbuilt(maxAttempts: nat, steps: seq<Step>, reasons: Id -> string, id: Id)
    requires Run(maxAttempts, steps).Some? && Uses(maxAttempts, steps, reasons) && Trim(reasons(id)) != ""
    ensures Count(Run(maxAttempts, steps).value.unbuilt, id) == 0
  {
    if steps != [] {
      hide Trim, Enabled, Apply, Count;
      var n := |steps| - 1;
      PrintableIsNeverUnbuilt(maxAttempts, steps[..n], reasons, id);
      OnlyBlankReasonsAreUnbuilt(maxAttempts, Run(maxAttempts, steps[..n]).value, steps[n], id);
    } else {
      NothingUnbuilt(id);
    }
  }

  lemma NothingUnbuilt(id: Id)
    ensures Count([], id) == 0
  {
  }

  // ---------- a run beyond the limit ----------

  /** The first k entries are read, processed and acknowledged one by one. */
  function Settling(k: nat): seq<Step> {
    if k == 0 then [CreateGroup] else Settling(k - 1) + [Append, Read(1, true), Process, Ack(true)]
  }

  /** A failing attempt; once the allowed attempts are used up it tries to build a letter. */
  function Attempt(maxAttempts: nat, n: nat, reason: string): seq<Step> {
    [Fail, Judge] + if n >= maxAttempts then [Build(reason)] else []
  }

  /** The entry after those fails n times. */
  function Failing(maxAttempts: nat, k: nat, n: nat, reason: string): seq<Step>
    requires n >= 1
  {
    (if n == 1 then Settling(k) + [Append, Read(1, true)]
     else Failing(maxAttempts, k, n - 1, reason) + [Claim([k], true)]) + Attempt(maxAttempts, n, reason)
  }

  /** The consumer is between batches, nothing has gone wrong, and the first k entries are all there is. */
  predicate AllDone(s: State, k: nat) {
    s.entries == k && s.group && s.cursor == k && s.pending == map[] && s.faults == [] && s.batch == []
        && s.phase.Ready?
  }

  predicate OnePending(s: State, k: nat, n: nat) {
    s.entries == k + 1 && s.group && s.cursor == k + 1 && s.pending == map[k := n] && s.faults == []
  }

  ghost predicate Reaches(maxAttempts: nat, steps: seq<Step>, reasons: Id -> string, s: State) {
    Run(maxAttempts, steps) == Some(s) && Uses(maxAttempts, steps, reasons)
  }

  lemma Then(maxAttempts: nat, steps: seq<Step>, reasons: Id -> string, s: State, step: Step)
    requires Reaches(maxAttempts, steps, reasons, s) && Enabled(s, step)
    requires step.Build? ==> step.reason == reasons(s.batch[0])
    ensures Reaches(maxAttempts, steps + [step], reasons, Apply(maxAttempts, s, step))
  {
    hide Apply, Enabled;
    RunExtends(maxAttempts, steps, step);
    assert (steps + [step])[..|steps|] == steps;
  }

  lemma ReadOne(maxAttempts: nat, steps: seq<Step>, reasons: Id -> string, s: State, k: nat) returns (t: State)
    requires Reaches(maxAttempts, steps, reasons, s) && AllDone(s, k)
    ensures Reaches(maxAttempts, steps + [Append, Read(1, true)], reasons, t)
    ensures OnePending(t, k, 1) && t.batch == [k] && t.phase.Ready?
  {
    hide Reaches;
    Then(maxAttempts, steps, reasons, s, Append);
    var u := Apply(maxAttempts, s, Append);
    Then(maxAttempts, steps + [Append], reasons, u, Read(1, true));
    t := Apply(maxAttempts, u, Read(1, true));
    assert steps + [Append] + [Read(1, true)] == steps + [Append, Read(1, true)];
    assert Range(k, 1) == [k];
    assert t.pending == map[k := 1];
  }

  lemma GroupRuns(maxAttempts: nat, reasons: Id -> string) returns (s: State)
    ensures Reaches(maxAttempts, [CreateGroup], reasons, s) && AllDone(s, 0)
  {
    assert Reaches(maxAttempts, [], reasons, Empty());
    hide Reaches;
    Then(maxAttempts, [], reasons, Empty(), CreateGroup);
    s := Apply(maxAttempts, Empty(), CreateGroup);
    assert [] + [CreateGroup] == [CreateGroup];
  }

  lemma {:induction false} SettlingRuns(maxAttempts: nat, k: nat, reasons: Id -> string) returns (s: State)
    ensures Reaches(maxAttempts, Settling(k), reasons, s) && AllDone(s, k)
  {
    if k == 0 {
      s := GroupRuns(maxAttempts, reasons);
    } else {
      hide Reaches, AllDone, OnePending;
      var r := SettlingRuns(maxAttempts, k - 1, reasons);
      var t := ReadOne(maxAttempts, Settling(k - 1), reasons, r, k - 1);
      s := SuccessRuns(maxAttempts, Settling(k - 1) + [Append, Read(1, true)], reasons, t, k - 1);
      assert Settling(k - 1) + [Append, Read(1, true)] + [Process, Ack(true)] == Settling(k);
    }
  }

  lemma SuccessRuns(maxAttempts: nat, steps: seq<Step>, reasons: Id -> string, s: State, k: nat) returns (t: State)
    requires Reaches(maxAttempts, steps, reasons, s) && OnePending(s, k, 1) && s.batch == [k] && s.phase.Ready?
    ensures Reaches(maxAttempts, steps + [Process, Ack(true)], reasons, t) && AllDone(t, k + 1)
  {
    hide Reaches;
    Then(maxAttempts, steps, reasons, s, Process);
    var u := Apply(maxAttempts, s, Process);
    Then(maxAttempts, steps + [Process], reasons, u, Ack(true));
    t := Apply(maxAttempts, u, Ack(true));
    assert steps + [Process] + [Ack(true)] == steps + [Process, Ack(true)];
    assert t.pending == map[];
  }

  lemma AttemptRuns(maxAttempts: nat, steps: seq<Step>, reasons: Id -> string, s: State, k: nat, n: nat)
      returns (t: State)
    requires Reaches(maxAttempts, steps, reasons, s) && OnePending(s, k, n) && s.batch == [k] && s.phase.Ready?
        && n >= 1
    requires Trim(reasons(k)) == ""
    ensures Reaches(maxAttempts, steps + Attempt(maxAttempts, n, reasons(k)), reasons, t)
    ensures OnePending(t, k, n) && t.batch == [] && t.phase.Ready?
  {
    hide Reaches, Trim;
    Then(maxAttempts, steps, reasons, s, Fail);
    var u := Apply(maxAttempts, s, Fail);
    Then(maxAttempts, steps + [Fail], reasons, u, Judge);
    t := Apply(maxAttempts, u, Judge);
    assert steps + [Fail] + [Judge] == steps + [Fail, Judge];
    if n >= maxAttempts {
      Then(maxAttempts, steps + [Fail, Judge], reasons, t, Build(reasons(k)));
      t := Apply(maxAttempts, t, Build(reasons(k)));
      assert steps + [Fail, Judge] + [Build(reasons(k))] == steps + Attempt(maxAttempts, n, reasons(k));
    } else {
      assert steps + [Fail, Judge] == steps + Attempt(maxAttempts, n, reasons(k));
    }
  }

  /** With a blank reason an entry can fail any number of times, without a fault and without a letter. */
  lemma {:induction false} FailingRuns(maxAttempts: nat, k: nat, n: nat, reasons: Id -> string) returns (s: State)
    requires n >= 1 && Trim(reasons(k)) == ""
    ensures Reaches(maxAttempts, Failing(maxAttempts, k, n, reasons(k)), reasons, s)
    ensures OnePending(s, k, n) && s.batch == [] && s.phase.Ready?
  {
    hide Reaches, Trim, Attempt;
    if n == 1 {
      var r := SettlingRuns(maxAttempts, k, reasons);
      var t := ReadOne(maxAttempts, Settling(k), reasons, r, k);
      s := AttemptRuns(maxAttempts, Settling(k) + [Append, Read(1, true)], reasons, t, k, 1);
    } else {
      var r := FailingRuns(maxAttempts, k, n - 1, reasons);
      var steps := Failing(maxAttempts, k, n - 1, reasons(k));
      Then(maxAttempts, steps, reasons, r, Claim([k], true));
      var t := Apply(maxAttempts, r, Claim([k], true));
      assert t.pending == map[k := n];
      s := AttemptRuns(maxAttempts, steps + [Claim([k], true)], reasons, t, k, n);
    }
  }

  /** For any entry and any limit: with a blank reason there is a run without any fault that exceeds the limit. */
  lemma {:induction false} BlankReasonExceedsLimit(maxAttempts: nat, reasons: Id -> string, id: Id)
      returns (steps: seq<Step>)
    requires Trim(reasons(id)) == ""
    ensures Run(maxAttempts, steps).Some? && Uses(maxAttempts, steps, reasons)
    ensures var s := Run(maxAttempts, steps).value;
            s.faults == [] && Count(s.deliveries, id) == Bound(maxAttempts) + 1 && !WithinLimit(maxAttempts, s, id)
  {
    hide Trim, Run, Kept, Held;
    var s := FailingRuns(maxAttempts, id, Bound(maxAttempts) + 1, reasons);
    steps := Failing(maxAttempts, id, Bound(maxAttempts) + 1, reasons(id));
    RunsAreSound(maxAttempts, steps);
    assert id in s.pending && s.pending[id] == Bound(maxAttempts) + 1;
  }

  /**
    Whatever the limit and whatever the errors say, an entry stays within the limit in every run
    exactly when the reason its errors give is not blank.
   */
  lemma {:induction false} LimitHoldsExactlyForPrintableReasons(maxAttempts: nat, reasons: Id -> string, id: Id)
    ensures (forall steps :: Run(maxAttempts, steps).Some? && Uses(maxAttempts, steps, reasons) ==>
               WithinLimit(maxAttempts, Run(maxAttempts, steps).value, id)) <==>
            Trim(reasons(id)) != ""
  {
    hide Trim, Run, Count, Bound, Uses;
    if Trim(reasons(id)) == "" {
      var steps := BlankReasonExceedsLimit(maxAttempts, reasons, id);
    } else {
      forall steps | Run(maxAttempts, steps).Some? && Uses(maxAttempts, steps, reasons)
        ensures WithinLimit(maxAttempts, Run(maxAttempts, steps).value, id)
      {
        DeliveriesAreBounded(maxAttempts, steps, id);
        PrintableIsNeverUnbuilt(maxAttempts, steps, reasons, id);
      }
    }
  }
}
