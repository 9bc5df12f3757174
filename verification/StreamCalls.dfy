/**
  What handling one entry comes to, given what becomes of each call on the way: whether it is
  answered, and if not, whether it took effect and whether the consumer died in it.
 */
module StreamCalls {
  import opened Text
  import opened StreamGroup

  datatype Fate = Heard | Lost(took: bool, died: bool)

  /**
    The calls that handling an entry may make: the delivery count, the letter, and the
    acknowledgement after either.
   */
  datatype Calls = Calls(count: Fate, letter: Fate, letterAck: Fate, ack: Fate)

  datatype Handled = Acked | DeadLettered | LeftPending | Crashed

  /** Where the stream is afterwards, how the entry was handled, and whether a letter was written. */
  datatype Course = Course(state: State, handled: Handled, letter: bool)

  /** How processing the command ended. */
  datatype Executed = Finished | Raised | DiedIn

  function Unheard(a: Fate): Handled
    requires a.Lost?
  {
    if a.died then Crashed else LeftPending
  }

  function AfterLost(s: State, died: bool): State {
    if died then Restarted(s) else s
  }

  /** XACK after processing, or after the dead letter. */
  function AfterAck(maxAttempts: nat, s: State, a: Fate): State
    requires s.batch != [] && (s.phase.Done? || s.phase.Buried?)
  {
    match a
    case Heard => Apply(maxAttempts, s, Ack(true))
    case Lost(took, died) =>
      AfterLost(Apply(maxAttempts, s, if took then Ack(false) else if s.phase.Done? then AckFails else Stumble), died)
  }

  /** A call that changes nothing in the stream. */
  function AfterCount(maxAttempts: nat, s: State, a: Fate): State
    requires s.batch != [] && (s.phase.Ready? || s.phase.Erring?)
  {
    match a
    case Heard => s
    case Lost(_, died) => AfterLost(Apply(maxAttempts, s, Stumble), died)
  }

  /** XADD of the dead letter. */
  function AfterLetter(maxAttempts: nat, s: State, a: Fate): State
    requires s.batch != [] && s.phase.Built?
  {
    match a
    case Heard => Apply(maxAttempts, s, Bury(true))
    case Lost(took, died) => AfterLost(Apply(maxAttempts, s, if took then Bury(false) else Stumble), died)
  }

  predicate TookEffect(a: Fate) {
    a.Heard? || a.took
  }

  /** `writeDeadLetterAndAck`. */
  function Burial(maxAttempts: nat, s: State, reason: string, c: Calls): Course
    requires s.batch != [] && s.phase.Burying?
  {
    var built := Apply(maxAttempts, s, Build(reason));
    if Trim(reason) == "" then Course(built, LeftPending, false)
    else
      var added := AfterLetter(maxAttempts, built, c.letter);
      if c.letter.Lost? then Course(added, Unheard(c.letter), c.letter.took)
      else
        Course(AfterAck(maxAttempts, added, c.letterAck),
               if c.letterAck.Heard? then DeadLettered else Unheard(c.letterAck), true)
  }

  /** The delivery count, and then either another attempt later or the dead letter. */
  function AfterError(maxAttempts: nat, s: State, reason: string, c: Calls): Course
    requires s.batch != [] && s.phase.Erring?
  {
    if c.count.Lost? then Course(AfterCount(maxAttempts, s, c.count), Unheard(c.count), false)
    else
      var judged := Apply(maxAttempts, s, Judge);
      if Attempts(s, s.batch[0]) < maxAttempts then Course(judged, LeftPending, false)
      else Burial(maxAttempts, judged, reason, c)
  }

  /** An entry that does not parse: the delivery count, and then the dead letter. */
  function AfterInvalid(maxAttempts: nat, s: State, reason: string, c: Calls): Course
    requires s.batch != [] && s.phase.Ready?
  {
    if c.count.Lost? then Course(AfterCount(maxAttempts, s, c.count), Unheard(c.count), false)
    else Burial(maxAttempts, Apply(maxAttempts, s, Invalid), reason, c)
  }

  /** An entry that parses: processing, and then the acknowledgement or the error path. */
  function AfterValid(maxAttempts: nat, s: State, executed: Executed, reason: string, c: Calls): Course
    requires s.batch != [] && s.phase.Ready?
  {
    match executed
    case DiedIn => Course(Restarted(s), Crashed, false)
    case Raised => AfterError(maxAttempts, Apply(maxAttempts, s, Fail), reason, c)
    case Finished =>
      var acked := AfterAck(maxAttempts, Apply(maxAttempts, s, Process), c.ack);
      if c.ack.Heard? then Course(acked, Acked, false)
      else if c.ack.died then Course(acked, Crashed, false)
      else AfterError(maxAttempts, acked, reason, c)
  }

  // ---------- what the courses come to ----------

  predicate AllHeard(c: Calls) {
    c.count.Heard? && c.letter.Heard? && c.letterAck.Heard? && c.ack.Heard?
  }

  /** Some call of a course was not answered, or the consumer died while processing. */
  predicate Disturbed(executed: Executed, c: Calls) {
    executed.DiedIn? || !AllHeard(c)
  }

  /** The consumer has turned to its next entry, or died. */
  predicate Turned(s: State, course: Course)
    requires s.batch != []
  {
    if course.handled.Crashed? then course.state.batch == [] && course.state.phase.Ready?
    else course.state.batch == s.batch[1..] && course.state.phase.Ready?
  }

  /** What every way of ending an attempt without an acknowledged success respects. */
  predicate Closes(s: State, course: Course)
    requires s.batch != []
  {
    && Turned(s, course) && !course.handled.Acked? && s.acked <= course.state.acked
    && course.state.processed == s.processed
    && course.state.dead == (if course.letter then s.dead + {s.batch[0]} else s.dead)
    && (course.handled.DeadLettered? ==>
        course.letter && (s.batch[0] in s.pending ==> s.batch[0] in course.state.acked))
  }

  lemma NextDoes(s: State)
    requires s.batch != []
    ensures var t := Next(s);
            t.batch == s.batch[1..] && t.phase.Ready? && t.acked == s.acked && t.processed == s.processed
                && t.dead == s.dead &&
            t.faults == s.faults
    ensures var t := Faulty(s);
            t.batch == s.batch[1..] && t.phase.Ready? && t.acked == s.acked && t.processed == s.processed
                && t.dead == s.dead
    ensures var t := Restarted(Faulty(s));
            t.batch == [] && t.phase.Ready? && t.acked == s.acked && t.processed == s.processed && t.dead == s.dead
  {
  }

  lemma LetterDoes(maxAttempts: nat, s: State, a: Fate)
    requires s.batch != [] && s.phase.Built?
    ensures var (t, head) := (AfterLetter(maxAttempts, s, a), s.batch[0]);
            && t.dead == (if TookEffect(a) then s.dead + {head} else s.dead)
            && t.processed == s.processed && t.pending == s.pending && t.acked == s.acked
            && (a.Heard? ==> t.batch == s.batch && t.phase.Buried? && t.faults == s.faults)
            && (a.Lost? ==> Turned(s, Course(t, Unheard(a), true)))
  {
    BuryDoes(maxAttempts, s, a.Heard?);
    StumbleDoes(maxAttempts, s);
    hide Apply, Enabled;
  }

  lemma LetterAckDoes(maxAttempts: nat, s: State, a: Fate)
    requires s.batch != [] && s.phase.Buried?
    ensures var (t, head) := (AfterAck(maxAttempts, s, a), s.batch[0]);
            && t.dead == s.dead && t.processed == s.processed && s.acked <= t.acked
            && (a.Heard? ==> Turned(s, Course(t, DeadLettered, true)) && t.faults == s.faults &&
                             (head in s.pending ==> head in t.acked))
            && (a.Lost? ==> Turned(s, Course(t, Unheard(a), true)))
  {
    AckDoes(maxAttempts, s, a.Heard?);
    StumbleDoes(maxAttempts, s);
    hide Apply, Enabled;
  }

  lemma BurialEnds(maxAttempts: nat, s: State, reason: string, c: Calls)
    requires s.batch != [] && s.phase.Burying?
    ensures var course := Burial(maxAttempts, s, reason, c);
            && Closes(s, course)
            && (course.state.faults != s.faults ==> c.letter.Lost? || c.letterAck.Lost?)
            && (Trim(reason) != "" && c.letter.Heard? && c.letterAck.Heard? ==> course.handled == DeadLettered)
            && (Trim(reason) == "" ==> course == Course(WithoutLetter(s), LeftPending, false))
  {
    hide Apply, Enabled, Trim, AfterLetter, AfterAck;
    BuildDoes(maxAttempts, s, reason);
    if Trim(reason) != "" {
      var built := s.(phase := Built);
      LetterDoes(maxAttempts, built, c.letter);
      if c.letter.Heard? {
        LetterAckDoes(maxAttempts, AfterLetter(maxAttempts, built, c.letter), c.letterAck);
      }
    }
  }

  /**
    After an error: if every call is answered, the entry gets its dead letter exactly when its
    attempts are used up and the error's text is not blank; a fault means that a call went unanswered.
   */
  lemma ErrorEnds(maxAttempts: nat, s: State, reason: string, c: Calls)
    requires s.batch != [] && s.phase.Erring?
    ensures var course := AfterError(maxAttempts, s, reason, c);
            && Closes(s, course)
            && (course.state.faults != s.faults ==> c.count.Lost? || c.letter.Lost? || c.letterAck.Lost?)
            && (c.count.Heard? && c.letter.Heard? && c.letterAck.Heard? ==>
                  course.handled ==
                    if Attempts(s, s.batch[0]) >= maxAttempts && Trim(reason) != "" then DeadLettered else LeftPending)
            && (course.letter ==> Attempts(s, s.batch[0]) >= maxAttempts)
  {
    hide Apply, Enabled, Burial, Trim, Next, Faulty, Restarted, WithoutLetter;
    JudgeDoes(maxAttempts, s);
    StumbleDoes(maxAttempts, s);
    NextDoes(s);
    if c.count.Heard? && Attempts(s, s.batch[0]) >= maxAttempts {
      BurialEnds(maxAttempts, s.(phase := Burying), reason, c);
    }
  }

  /** An entry that does not parse gets its dead letter at once, if every call is answered. */
  lemma InvalidEnds(maxAttempts: nat, s: State, reason: string, c: Calls)
    requires s.batch != [] && s.phase.Ready? && Trim(reason) != ""
    ensures var course := AfterInvalid(maxAttempts, s, reason, c);
            && Closes(s, course)
            && (course.state.faults != s.faults ==> c.count.Lost? || c.letter.Lost? || c.letterAck.Lost?)
            && (c.count.Heard? && c.letter.Heard? && c.letterAck.Heard? ==> course.handled == DeadLettered)
  {
    hide Apply, Enabled, Burial, Trim, Next, Faulty, Restarted, WithoutLetter;
    HandlingDoes(maxAttempts, s);
    StumbleDoes(maxAttempts, s);
    NextDoes(s);
    if c.count.Heard? {
      BurialEnds(maxAttempts, s.(phase := Burying), reason, c);
    }
  }

  lemma SuccessAckDoes(maxAttempts: nat, s: State, a: Fate)
    requires s.batch != [] && s.phase.Done? && s.batch[0] in s.pending
    ensures var (t, head) := (AfterAck(maxAttempts, s, a), s.batch[0]);
            && t.dead == s.dead && t.processed == s.processed && s.acked <= t.acked
            && (a.Heard? ==> Turned(s, Course(t, Acked, false)) && t.faults == s.faults && head in t.acked)
            && (a.Lost? && a.died ==> Turned(s, Course(t, Crashed, false)))
            && (a.Lost? && !a.died ==> t.batch == s.batch && t.phase.Erring? && t.faults == s.faults &&
                                       (head in t.pending || head in t.acked))
  {
    AckDoes(maxAttempts, s, a.Heard?);
    AckDoes(maxAttempts, s, false);
    hide Apply, Enabled;
  }

  /**
    An entry that parses: undisturbed, it is acknowledged if its processing finished, and otherwise
    dead-lettered or left pending as above. It is acknowledged without a letter only if it finished,
    and it meets a fault only if it was disturbed.
   */
  lemma ValidEnds(maxAttempts: nat, s: State, executed: Executed, reason: string, c: Calls)
    requires s.batch != [] && s.phase.Ready? && s.batch[0] in s.pending
    ensures var (course, head) := (AfterValid(maxAttempts, s, executed, reason, c), s.batch[0]);
            && Turned(s, course) && s.acked <= course.state.acked
            && (course.state.faults != s.faults ==> Disturbed(executed, c))
            && (!Disturbed(executed, c) ==>
                  course.handled == if executed.Finished? then Acked
                                    else if s.pending[head] >= maxAttempts && Trim(reason) != "" then DeadLettered
                                    else LeftPending)
            && course.state.processed == (if executed.Finished? then s.processed + {head} else s.processed)
            && course.state.dead == (if course.letter then s.dead + {head} else s.dead)
            && (course.handled.Acked? ==> executed.Finished? && head in course.state.acked)
            && (course.handled.DeadLettered? ==> course.letter && head in course.state.acked)
  {
    HandlingDoes(maxAttempts, s);
    hide AfterError, Trim, Apply, Enabled, AfterAck;
    if executed.Raised? {
      ErrorEnds(maxAttempts, s.(phase := Erring), reason, c);
    } else if executed.Finished? {
      var done := s.(processed := s.processed + {s.batch[0]}, phase := Done);
      SuccessAckDoes(maxAttempts, done, c.ack);
      if c.ack.Lost? && !c.ack.died {
        ErrorEnds(maxAttempts, AfterAck(maxAttempts, done, c.ack), reason, c);
      }
    }
  }
}
