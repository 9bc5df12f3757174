/**
  The order gateway: a row is stored before its stream entry is appended, a repeated request is only
  taken up again when its first append failed, and any number of requests run side by side with the
  other writers of the order table. Each store or stream call of a request is one step; a request
  may end before any of them.
 */
module Gateway {
  import opened Wrappers
  import opened Text
  import opened StreamContracts
  import opened ExchangeRequest
  import opened Orders
  import opened Commands
  import opened OrderDraft

  type Req = nat

  /** What a request has yet to do with its draft. */
  datatype Stage = Creating(d: Draft) | Comparing(d: Draft) | Appending(d: Draft,
      retry: bool) | Failing(d: Draft) | Resetting(d: Draft)

  datatype State = State(rows: Rows, entries: seq<Fields>, requests: map<Req, Stage>)

  datatype Step =
    | Post(req: Req, now: string, request: Request, userId: string, orderId: string, requestId: Option<string>)
    | Create(req: Req)
    | Clash(req: Req)
    | Compare(req: Req)
    | Append(req: Req, heard: bool)
    | AppendFails(req: Req)
    | MarkFailed(req: Req)
    | Reset(req: Req)
    | Drop(req: Req)
    | Background(rows: Rows)
    | AppendOther(entry: Fields)

  /** A stored time in force is never empty text. */
  ghost predicate StoresNull(rows: Rows) {
    forall id :: id in rows ==> rows[id].intent.timeInForce != Some("")
  }

  /** A submit to its consumer. */
  predicate IsSubmit<M>(env: Env<M>, entry: Fields) {
    ParseOrderCommand(env, entry).Ok? && KindOf(ParseOrderCommand(env, entry).value.fields) == Kind.Submit
  }

  /** Other writers keep intents; other commands are no submits. */
  ghost predicate Enabled<M>(lib: Library, env: Env<M>, s: State, step: Step) {
    match step
    case Post(req, now, request, userId, orderId, requestId) =>
      req !in s.requests && CreateDraft(lib, env.(now := now), request, userId, orderId, requestId).Ok?
    case Create(req) =>
      req in s.requests && s.requests[req].Creating? && s.requests[req].d.orderId !in s.rows
          && RowAccepted(lib, s.requests[req].d)
    case Clash(req) => req in s.requests && s.requests[req].Creating? && s.requests[req].d.orderId in s.rows
    case Compare(req) => req in s.requests && s.requests[req].Comparing?
    case Append(req, _) => req in s.requests && s.requests[req].Appending?
    case AppendFails(req) => req in s.requests && s.requests[req].Appending?
    case MarkFailed(req) => req in s.requests && s.requests[req].Failing? && s.requests[req].d.orderId in s.rows
    case Reset(req) => req in s.requests && s.requests[req].Resetting? && s.requests[req].d.orderId in s.rows
    case Drop(req) => req in s.requests
    case Background(rows) => KeepsIntents(s.rows, rows) && StoresNull(rows)
    case AppendOther(entry) => !IsSubmit(env, entry)
  }

  function CreatedRow(lib: Library, d: Draft): Row {
    NewRow(StoredIntent(lib, d), Received)
  }

  function Goto(s: State, req: Req, stage: Stage): State {
    s.(requests := s.requests[req := stage])
  }

  function Close(s: State, req: Req): State {
    s.(requests := s.requests - {req})
  }

  ghost function Apply<M>(lib: Library, env: Env<M>, s: State, step: Step): State
    requires Enabled(lib, env, s, step)
  {
    match step
    case Post(req, now, request, userId, orderId, requestId) =>
      Goto(s, req, Creating(CreateDraft(lib, env.(now := now), request, userId, orderId, requestId).value))
    case Create(req) =>
      var d := s.requests[req].d;
      Goto(s.(rows := s.rows[d.orderId := CreatedRow(lib, d)]), req, Appending(d, false))
    case Clash(req) => Goto(s, req, Comparing(s.requests[req].d))
    case Compare(req) =>
      var d := s.requests[req].d;
      if SameIntent(lib, RowAt(s.rows, d.orderId), d) && s.rows[d.orderId].status == StreamAppendFailed
      then Goto(s, req, Appending(d, true)) else Close(s, req)
    case Append(req, heard) =>
      var (d, retry) := (s.requests[req].d, s.requests[req].retry);
      var t := s.(entries := s.entries + [d.entry]);
      if !heard then Goto(t, req, Failing(d)) else if retry then Goto(t, req, Resetting(d)) else Close(t, req)
    case AppendFails(req) => Goto(s, req, Failing(s.requests[req].d))
    case MarkFailed(req) =>
      Close(WithStatus(s, s.requests[req].d.orderId, StreamAppendFailed, Some(APPEND_FAILED)), req)
    case Reset(req) =>
      Close(WithStatus(s, s.requests[req].d.orderId, Received, None), req)
    case Drop(req) => Close(s, req)
    case Background(rows) => s.(rows := rows)
    case AppendOther(entry) => s.(entries := s.entries + [entry])
  }

  ghost function Run<M>(lib: Library, env: Env<M>, stored: Rows, steps: seq<Step>): Option<State> {
    if steps == [] then Some(State(stored, [], map[]))
    else
      var before := Run(lib, env, stored, steps[..|steps| - 1]);
      if before.Some? && Enabled(lib, env, before.value, steps[|steps| - 1])
      then Some(Apply(lib, env, before.value, steps[|steps| - 1])) else None
  }

  // What single steps do, for callers that need not know about the others.

  lemma AppendDoes<M>(lib: Library, env: Env<M>, s: State, req: Req, heard: bool)
    requires req in s.requests && s.requests[req].Appending?
    ensures var (d, t) := (s.requests[req].d, s.(entries := s.entries + [s.requests[req].d.entry]));
            Enabled(lib, env, s, Append(req, heard)) &&
            Apply(lib, env, s, Append(req, heard)) ==
              if !heard then Goto(t, req, Failing(d)) else if s.requests[req].retry then Goto(t, req,
                  Resetting(d)) else Close(t, req)
    ensures Enabled(lib, env, s, AppendFails(req)) &&
            Apply(lib, env, s, AppendFails(req)) == Goto(s, req, Failing(s.requests[req].d))
  {
  }

  lemma CreateDoes<M>(lib: Library, env: Env<M>, s: State, req: Req)
    requires req in s.requests && s.requests[req].Creating?
    ensures var d := s.requests[req].d;
            && (d.orderId in s.rows ==>
                  Enabled(lib, env, s, Clash(req)) && Apply(lib, env, s, Clash(req)) == Goto(s, req, Comparing(d)))
            && (d.orderId !in s.rows && RowAccepted(lib, d) ==>
                  Enabled(lib, env, s, Create(req)) &&
                  Apply(lib, env, s, Create(req)) ==
                    Goto(s.(rows := s.rows[d.orderId := CreatedRow(lib, d)]), req, Appending(d, false)))
    ensures Enabled(lib, env, s, Drop(req)) && Apply(lib, env, s, Drop(req)) == Close(s, req)
  {
    hide StoredIntent;
  }

  function WithStatus(s: State, id: OrderId, status: Status, errorMsg: Option<string>): State
    requires id in s.rows
  {
    s.(rows := s.rows[id := s.rows[id].(status := status, errorMsg := errorMsg)])
  }

  const APPEND_FAILED := "Redis stream append failed"

  lemma UpdateDoes<M>(lib: Library, env: Env<M>, s: State, req: Req)
    requires req in s.requests && s.requests[req].d.orderId in s.rows
    ensures s.requests[req].Failing? ==>
              Enabled(lib, env, s, MarkFailed(req)) &&
              Apply(lib, env, s, MarkFailed(req)) ==
                Close(WithStatus(s, s.requests[req].d.orderId, StreamAppendFailed, Some(APPEND_FAILED)), req)
    ensures s.requests[req].Resetting? ==>
              Enabled(lib, env, s, Reset(req)) &&
              Apply(lib, env, s, Reset(req)) == Close(WithStatus(s, s.requests[req].d.orderId, Received, None), req)
    ensures Enabled(lib, env, s, Drop(req)) && Apply(lib, env, s, Drop(req)) == Close(s, req)
  {
  }

  // ---------- the invariant ----------

  /** The draft's entry is a submit of exactly the order its row stores. */
  predicate Faithful<M>(lib: Library, env: Env<M>, d: Draft) {
    EntryOrder(lib, env, d.entry) == Ok(Order(d.orderId, StoredIntent(lib, d)))
  }

  predicate Stored(lib: Library, rows: Rows, d: Draft) {
    d.orderId in rows && rows[d.orderId].intent == StoredIntent(lib, d)
  }

  predicate HasRow<M>(lib: Library, env: Env<M>, rows: Rows, entry: Fields) {
    var order := EntryOrder(lib, env, entry);
    order.Ok? && order.value.orderId in rows && rows[order.value.orderId].intent == order.value.intent
  }

  ghost predicate Sane<M>(lib: Library, env: Env<M>, s: State) {
    && StoresNull(s.rows)
    && (forall req :: req in s.requests ==> Faithful(lib, env, s.requests[req].d))
    && (forall req ::
          && req in s.requests
          && (s.requests[req].Appending? || s.requests[req].Failing? || s.requests[req].Resetting?) ==>
            Stored(lib, s.rows, s.requests[req].d))
    && (forall i :: 0 <= i < |s.entries| ==> IsSubmit(env, s.entries[i]) ==> HasRow(lib, env, s.rows, s.entries[i]))
  }

  /** Every request names its order and its user without white space around them, at some point in time. */
  predicate Tidy<M>(env: Env<M>, step: Step) {
    step.Post? ==>
      Trim(step.orderId) == step.orderId && Trim(step.userId) == step.userId &&
      step.now != "" && Trimmed(step.now) && env.isTimestamp(step.now)
  }

  lemma {:induction false} DraftIsFaithful<M(!new)>(lib: Library, env: Env<M>, s: State, step: Step)
    requires Sound(env) && Exact(lib) && step.Post? && Tidy(env, step) && Enabled(lib, env, s, step)
    ensures Faithful(lib, env,
        CreateDraft(lib, env.(now := step.now), step.request, step.userId, step.orderId, step.requestId).value)
  {
    hide CreateDraft, EntryOrder, Exact, Trim, Trimmed, StoredIntent;
    var d := CreateDraft(lib, env.(now := step.now), step.request, step.userId, step.orderId, step.requestId).value;
    EntryMeansRow(lib, env.(now := step.now), env.now, step.request, step.userId, step.orderId, step.requestId);
    assert StoredIntent(lib, d).userId == d.userId by { StoredUser(lib, d); }
    assert env.(now := step.now).(now := env.now) == env;
  }

  lemma StoredUser(lib: Library, d: Draft)
    ensures StoredIntent(lib, d).userId == d.userId
  {
  }

  lemma RowsMayChange<M>(lib: Library, env: Env<M>, s: State, rows: Rows)
    requires Sane(lib, env, s) && KeepsIntents(s.rows, rows) && StoresNull(rows)
    ensures Sane(lib, env, s.(rows := rows))
  {
    hide Faithful, StoredIntent, EntryOrder, IsSubmit;
  }

  lemma {:induction false} StageMayChange<M>(lib: Library, env: Env<M>, s: State, req: Req, stage: Stage)
    requires Sane(lib, env, s) && Faithful(lib, env, stage.d)
    requires stage.Creating? || stage.Comparing? || Stored(lib, s.rows, stage.d)
    ensures Sane(lib, env, Goto(s, req, stage)) && Sane(lib, env, Close(s, req))
  {
    hide Faithful, Stored, HasRow, IsSubmit, StoresNull;
  }

  lemma {:induction false} EntryMayBeAppended<M>(lib: Library, env: Env<M>, s: State, entry: Fields)
    requires Sane(lib, env, s) && (IsSubmit(env, entry) ==> HasRow(lib, env, s.rows, entry))
    ensures Sane(lib, env, s.(entries := s.entries + [entry]))
  {
    hide Faithful, Stored, HasRow, IsSubmit, StoresNull;
  }

  /** Storing a row under a new id, or changing the status of one. */
  lemma RowWritten(rows: Rows, id: OrderId, row: Row)
    requires StoresNull(rows) && row.intent.timeInForce != Some("") && (id in rows ==> row.intent == rows[id].intent)
    ensures KeepsIntents(rows, rows[id := row]) && StoresNull(rows[id := row])
  {
  }

  lemma {:induction false} CreateKeepsSane<M>(lib: Library, env: Env<M>, s: State, req: Req)
    requires Sane(lib, env, s) && Enabled(lib, env, s, Create(req))
    ensures Sane(lib, env, Apply(lib, env, s, Create(req)))
  {
    hide Faithful, HasRow, IsSubmit, StoresNull, RowAccepted, EntryOrder, DecimalText, Sane, KeepsIntents;
    var d := s.requests[req].d;
    RequestIsFaithful(lib, env, s, req);
    RowWritten(s.rows, d.orderId, CreatedRow(lib, d));
    RowsMayChange(lib, env, s, s.rows[d.orderId := CreatedRow(lib, d)]);
    StageMayChange(lib, env, s.(rows := s.rows[d.orderId := CreatedRow(lib, d)]), req, Appending(d, false));
  }

  lemma {:induction false} RequestIsFaithful<M>(lib: Library, env: Env<M>, s: State, req: Req)
    requires Sane(lib, env, s) && req in s.requests
    ensures Faithful(lib, env, s.requests[req].d) && StoresNull(s.rows)
    ensures !s.requests[req].Creating? && !s.requests[req].Comparing? ==> Stored(lib, s.rows, s.requests[req].d)
  {
    hide Faithful, Stored, HasRow, IsSubmit, StoresNull;
  }

  lemma {:induction false} CompareKeepsSane<M>(lib: Library, env: Env<M>, s: State, req: Req)
    requires Sane(lib, env, s) && Enabled(lib, env, s, Compare(req))
    ensures Sane(lib, env, Apply(lib, env, s, Compare(req)))
  {
    hide Faithful, HasRow, IsSubmit, EntryOrder, StoredIntent, Sane, SameIntent;
    var d := s.requests[req].d;
    RequestIsFaithful(lib, env, s, req);
    StageMayChange(lib, env, s, req, Comparing(d));
    if SameIntent(lib, RowAt(s.rows, d.orderId), d) {
      SameIntentHasRow(lib, RowAt(s.rows, d.orderId), d);
      SameIntentMeansEqual(lib, s.rows[d.orderId], d);
      StageMayChange(lib, env, s, req, Appending(d, true));
    }
  }

  lemma SameIntentHasRow(lib: Library, row: Option<Row>, d: Draft)
    requires SameIntent(lib, row, d)
    ensures row.Some?
  {
  }

  lemma {:induction false} AppendKeepsSane<M>(lib: Library, env: Env<M>, s: State, req: Req, heard: bool)
    requires Sane(lib, env, s) && Enabled(lib, env, s, Append(req, heard))
    ensures Sane(lib, env, Apply(lib, env, s, Append(req, heard)))
  {
    hide IsSubmit, EntryOrder, StoredIntent, Sane, StoresNull;
    var d := s.requests[req].d;
    RequestIsFaithful(lib, env, s, req);
    EntryMayBeAppended(lib, env, s, d.entry);
    StageMayChange(lib, env, s.(entries := s.entries + [d.entry]), req, Failing(d));
    StageMayChange(lib, env, s.(entries := s.entries + [d.entry]), req, Resetting(d));
  }

  /** The status of a request's row is rewritten; the handler ends. */
  lemma {:induction false} StatusMayChange<M>(lib: Library, env: Env<M>, s: State, req: Req, status: Status,
      errorMsg: Option<string>)
    requires Sane(lib, env, s) && req in s.requests && s.requests[req].d.orderId in s.rows
    ensures Sane(lib, env, Close(WithStatus(s, s.requests[req].d.orderId, status, errorMsg), req))
  {
    hide IsSubmit, EntryOrder, StoredIntent, Sane, Faithful, KeepsIntents;
    var d := s.requests[req].d;
    var row := s.rows[d.orderId].(status := status, errorMsg := errorMsg);
    RequestIsFaithful(lib, env, s, req);
    RowWritten(s.rows, d.orderId, row);
    RowsMayChange(lib, env, s, s.rows[d.orderId := row]);
    StageMayChange(lib, env, s.(rows := s.rows[d.orderId := row]), req, Creating(d));
  }

  lemma {:induction false} StepKeepsSane<M(!new)>(lib: Library, env: Env<M>, s: State, step: Step)
    requires Sound(env) && Exact(lib) && Sane(lib, env, s) && Tidy(env, step) && Enabled(lib, env, s, step)
    ensures Sane(lib, env, Apply(lib, env, s, step))
  {
    hide Sane, Faithful, Stored, HasRow, IsSubmit, CreateDraft, StoredIntent, SameIntent, Exact, StoresNull, Sound,
        Tidy, RowAccepted;
    match step {
      case Post(req, now, request, userId, orderId, requestId) =>
        DraftIsFaithful(lib, env, s, step);
        StageMayChange(lib, env, s, req,
            Creating(CreateDraft(lib, env.(now := now), request, userId, orderId, requestId).value));
      case Create(req) => CreateKeepsSane(lib, env, s, req);
      case Clash(req) =>
        RequestIsFaithful(lib, env, s, req);
        StageMayChange(lib, env, s, req, Comparing(s.requests[req].d));
      case Compare(req) => CompareKeepsSane(lib, env, s, req);
      case Append(req, heard) => AppendKeepsSane(lib, env, s, req, heard);
      case AppendFails(req) =>
        RequestIsFaithful(lib, env, s, req);
        StageMayChange(lib, env, s, req, Failing(s.requests[req].d));
      case MarkFailed(req) =>
        StatusMayChange(lib, env, s, req, StreamAppendFailed, Some(APPEND_FAILED));
      case Reset(req) => StatusMayChange(lib, env, s, req, Received, None);
      case Drop(req) =>
        RequestIsFaithful(lib, env, s, req);
        StageMayChange(lib, env, s, req, Creating(s.requests[req].d));
      case Background(rows) => RowsMayChange(lib, env, s, rows);
      case AppendOther(entry) => EntryMayBeAppended(lib, env, s, entry);
    }
  }

  lemma {:induction false} RunsAreSane<M(!new)>(lib: Library, env: Env<M>, stored: Rows, steps: seq<Step>)
    requires Sound(env) && Exact(lib) && StoresNull(stored) && Run(lib, env, stored, steps).Some?
    requires forall i :: 0 <= i < |steps| ==> Tidy(env, steps[i])
    ensures Sane(lib, env, Run(lib, env, stored, steps).value)
  {
    if steps == [] {
    } else {
      hide Sane, Tidy, Exact, Sound, Enabled, Apply, StoresNull;
      var n := |steps| - 1;
      RunsAreSane(lib, env, stored, steps[..n]);
      StepKeepsSane(lib, env, Run(lib, env, stored, steps[..n]).value, steps[n]);
    }
  }

  /**
    In every run of requests and other writers, every submit entry of the stream has a stored row
    under its order id with the same user, symbol, side, type, time in force and the same amounts.
   */
  lemma {:induction false} EverySubmitHasItsRow<M(!new)>(lib: Library, env: Env<M>, stored: Rows, steps: seq<Step>,
      i: nat)
    requires Sound(env) && Exact(lib) && StoresNull(stored) && Run(lib, env, stored, steps).Some?
    requires forall k :: 0 <= k < |steps| ==> Tidy(env, steps[k])
    requires var s := Run(lib, env, stored, steps).value; i < |s.entries| && IsSubmit(env, s.entries[i])
    ensures var s := Run(lib, env, stored, steps).value;
            var order := EntryOrder(lib, env, s.entries[i]);
            && order.Ok? && order.value.orderId in s.rows
            && s.rows[order.value.orderId].intent == order.value.intent
  {
    hide Run, Tidy, Exact, Sound, StoresNull, Faithful, Stored, IsSubmit, EntryOrder;
    RunsAreSane(lib, env, stored, steps);
  }

  lemma {:induction false} StepKeepsIntents<M>(lib: Library, env: Env<M>, s: State, step: Step)
    requires Enabled(lib, env, s, step)
    ensures KeepsIntents(s.rows, Apply(lib, env, s, step).rows)
  {
    hide IsSubmit, CreateDraft, StoredIntent, SameIntent, RowAccepted, StoresNull;
  }

  /** A row is never deleted and its intent never rewritten, whatever the requests do. */
  lemma {:induction false} IntentsStay<M>(lib: Library, env: Env<M>, stored: Rows, steps: seq<Step>)
    requires Run(lib, env, stored, steps).Some?
    ensures KeepsIntents(stored, Run(lib, env, stored, steps).value.rows)
  {
    if steps != [] {
      hide Enabled, Apply;
      IntentsStay(lib, env, stored, steps[..|steps| - 1]);
      StepKeepsIntents(lib, env, Run(lib, env, stored, steps[..|steps| - 1]).value, steps[|steps| - 1]);
    }
  }

  /**
    To the order processor the gateway is one of the background writers: no request drops a recorded
    exchange id, although a retry may set the status of an order already submitted back to received.
   */
  lemma {:induction false} RequestsKeepExchangeIds<M>(lib: Library, env: Env<M>, s: State, step: Step)
    requires Enabled(lib, env, s, step) && !step.Background?
    ensures KeepsExchangeIds(s.rows, Apply(lib, env, s, step).rows)
    ensures step.Reset? && AlreadySubmitted(Some(s.rows[s.requests[step.req].d.orderId])) &&
            s.rows[s.requests[step.req].d.orderId].binanceOrderId.Some? ==>
              var row := Apply(lib, env, s, step).rows[s.requests[step.req].d.orderId];
              row.status == Received && AlreadySubmitted(Some(row))
  {
    hide IsSubmit, CreateDraft, StoredIntent, SameIntent, RowAccepted, StoresNull;
  }

  /** The entries of the cancel endpoints are no submits. */
  lemma {:induction false} CancelEntriesAreNoSubmits<M(!new)>(kind: Kind, env: Env<M>, later: string, input: Fields,
      metadata: Option<Json<M>>)
    requires Sound(env) && kind != Kind.Submit && Build(kind, env, input, metadata).Ok?
    ensures !IsSubmit(env.(now := later), Build(kind, env, input, metadata).value)
  {
    hide Build, Normalize, ParseOrderCommand, Sound, MessageTypeOf, OmitEmpty, Trim, TextAt, SubmitRules;
    ParseInvertsBuild(kind, env, later, input, metadata);
    BuildSucceeds(kind, env, input, metadata);
    OmitEmptyKeepsText(Normalize(kind, env, input, metadata).fields, MessageType);
    MessageTypesDiffer();
  }

  // ---------- order ids with white space around them ----------

  /**
    What a fresh request stores and then appends: the entry has its row exactly when neither the
    order id nor the user id has
    white space around it: the row keeps the ids as they came, the entry trims them.
   */
  lemma {:induction false} RowIsFoundWhenTidy<M(!new)>(lib: Library, env: Env<M>, request: Request, userId: string,
      orderId: string)
    requires Sound(env) && Exact(lib) && CreateDraft(lib, env, request, userId, orderId, None).Ok?
    ensures var d := CreateDraft(lib, env, request, userId, orderId, None).value;
            HasRow(lib, env, map[orderId := CreatedRow(lib, d)], d.entry) <==>
                Trim(orderId) == orderId && Trim(userId) == userId
  {
    hide CreateDraft, EntryOrder, Exact, Trim, StoredIntent, Sound;
    EntryMeansRow(lib, env, env.now, request, userId, orderId, None);
    assert env.(now := env.now) == env;
    StoredUser(lib, CreateDraft(lib, env, request, userId, orderId, None).value);
  }
}
