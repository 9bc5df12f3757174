/**
  The order endpoints as the source runs them, one awaited call after another, with every other
  request and writer free to act before each call. The table keeps the history that led to it.
 */
module GatewayService {
  import opened Wrappers
  import opened StreamContracts
  import opened ExchangeRequest
  import opened Orders
  import opened OrderDraft
  import opened Gateway

  datatype Response = Accepted | Idempotent(status: Status) | BadRequest | Conflict | AppendFailed | ServerError

  /** The status a repeated request is answered with. */
  function ReportedStatus(status: Status): Status {
    if status == Received then Pending else status
  }

  /**
    What becomes of the calls of a request: whether the row's creation takes effect and is answered,
    whether the row is read, whether the append takes effect and is answered, whether the status is
    updated, and whether the notice on the older channel is answered.
   */
  datatype PostCalls = PostCalls(
    createTook: bool, createHeard: bool, found: bool, appendTook: bool, appendHeard: bool, update: bool, notice: bool)

  /** No step of the request since the given point appended an entry. */
  ghost predicate NoAppendOf(history: seq<Step>, from: nat, req: Req) {
    forall i :: from <= i < |history| ==> !(history[i].Append? && history[i].req == req)
  }

  /** What may happen without the request appending: rows keep their intents, entries and history only grow. */
  datatype Moment = Moment(history: seq<Step>, rows: Rows, entries: seq<Fields>)

  ghost predicate Quiet(req: Req, m: Moment, m': Moment) {
    && m.history <= m'.history && m.entries <= m'.entries && KeepsIntents(m.rows, m'.rows)
    && NoAppendOf(m'.history, |m.history|, req)
  }

  lemma QuietComposes(req: Req, m: Moment, m': Moment, m'': Moment)
    requires Quiet(req, m, m') && Quiet(req, m', m'')
    ensures Quiet(req, m, m'')
  {
  }

  /** A step that appends nothing and keeps the intents. */
  lemma QuietStep(req: Req, m: Moment, m': Moment, step: Step)
    requires m'.history == m.history + [step] && !step.Append? && m'.entries == m.entries
    requires KeepsIntents(m.rows, m'.rows)
    ensures Quiet(req, m, m')
  {
  }

  lemma KeepsOneIntent(rows: Rows, id: OrderId, row: Row)
    requires id in rows && row.intent == rows[id].intent
    ensures KeepsIntents(rows, rows[id := row]) && KeepsIntents(rows, rows)
  {
  }

  /** Quiet but for the request's own appends. */
  ghost predicate Follows(m: Moment, m': Moment) {
    m.history <= m'.history && m.entries <= m'.entries && KeepsIntents(m.rows, m'.rows)
  }

  lemma QuietFollows(req: Req, m: Moment, m': Moment)
    requires Quiet(req, m, m')
    ensures Follows(m, m')
  {
  }

  lemma FollowsQuietly(req: Req, m: Moment, m': Moment, m'': Moment)
    requires Follows(m, m') && Quiet(req, m', m'')
    ensures Follows(m, m'')
  {
  }

  lemma AppendFollows(m: Moment, m': Moment, m'': Moment)
    requires Follows(m, m') && m'.history <= m''.history && m'.entries <= m''.entries && m''.rows == m'.rows
    ensures Follows(m, m'')
  {
  }

  lemma FollowsOn(m: Moment, m': Moment, m'': Moment)
    requires Follows(m, m') && Follows(m', m'')
    ensures Follows(m, m'')
  {
  }

  lemma EntryStays(req: Req, m: Moment, m': Moment, entry: Fields)
    requires Quiet(req, m, m') && entry in m.entries
    ensures entry in m'.entries
  {
    assert m'.entries == m.entries + m'.entries[|m.entries|..];
  }

  /** Agreement with a row outlasts whatever is quiet. */
  lemma AgreementStays(lib: Library, req: Req, m: Moment, m': Moment, d: Draft)
    requires Quiet(req, m, m') && Agrees(lib, m.rows, d)
    ensures Agrees(lib, m'.rows, d) && d.orderId in m'.rows
  {
    hide SameIntent;
    AgreesMeansRow(lib, m.rows, d);
    AgreementLasts(lib, m.rows, m'.rows, d);
  }

  lemma AgreesMeansRow(lib: Library, rows: Rows, d: Draft)
    requires Agrees(lib, rows, d)
    ensures d.orderId in rows
  {
  }

  /** The row under the draft's order id is of the same intent; rows keep theirs, so this lasts. */
  predicate Agrees(lib: Library, rows: Rows, d: Draft) {
    SameIntent(lib, RowAt(rows, d.orderId), d)
  }

  lemma AgreementLasts(lib: Library, rows: Rows, rows': Rows, d: Draft)
    requires KeepsIntents(rows, rows') && d.orderId in rows
    ensures Agrees(lib, rows', d) <==> Agrees(lib, rows, d)
  {
    hide DecimalText;
  }

  lemma StoredAgrees(lib: Library, rows: Rows, d: Draft)
    requires Stored(lib, rows, d)
    ensures Agrees(lib, rows, d)
  {
    SameIntentMeansEqual(lib, rows[d.orderId], d);
  }

  lemma {:induction false} AgreesIsRequested(lib: Library, rows: Rows, d: Draft, request: Request, userId: string)
    requires IsRequested(lib, StoredIntent(lib, d), request, userId)
    ensures Agrees(lib, rows, d) ==>
              d.orderId in rows && IsRequested(lib, rows[d.orderId].intent, request, userId)
  {
    hide Asked, DecimalText;
    EmptyDecimal(lib, d.quantity);
    EmptyDecimal(lib, d.quoteOrderQty);
    EmptyDecimal(lib, d.price);
    EmptyDecimal(lib, d.stopPrice);
  }

  lemma EmptyDecimal(lib: Library, text: Option<string>)
    ensures text.GetOr("") == "" ==> DecimalText(lib, text) == None
  {
  }

  class OrderTable<M(!new)> {
    const lib: Library
    const env: Env<M>
    var rows: Rows
    var entries: seq<Fields>
    ghost const stored: Rows
    ghost var history: seq<Step>

    ghost predicate Valid()
      reads this
    {
      Run(lib, env, stored, history).Some? && Now().rows == rows && Now().entries == entries
    }

    ghost function Now(): State
      requires Run(lib, env, stored, history).Some?
      reads this
    {
      Run(lib, env, stored, history).value
    }

    constructor (lib: Library, env: Env<M>, stored: Rows)
      ensures Valid() && rows == stored && entries == [] && history == []
    {
      this.lib, this.env, this.stored := lib, env, stored;
      rows, entries, history := stored, [], [];
    }

    ghost function Here(): Moment
      reads this
    {
      Moment(history, rows, entries)
    }

    /** The request's own view: its stage, and the step just taken. */
    ghost predicate In(req: Req, stage: Stage)
      requires Run(lib, env, stored, history).Some?
      reads this
    {
      req in Now().requests && Now().requests[req] == stage
    }

    /** Every submit entry of the table has its row, if every request so far was tidy. */
    lemma {:induction false} SubmitsHaveRows(i: nat)
      requires Valid() && Sound(env) && Exact(lib) && StoresNull(stored)
      requires forall k :: 0 <= k < |history| ==> Tidy(env, history[k])
      requires i < |entries| && IsSubmit(env, entries[i])
      ensures HasRow(lib, env, rows, entries[i])
    {
      hide Run, Tidy, Exact, Sound, StoresNull, IsSubmit, EntryOrder;
      EverySubmitHasItsRow(lib, env, stored, history, i);
    }

    /** What everyone else does before a call of req: any steps of other requests and writers, possibly none. */
    method Interleave(req: Req)
      requires Valid()
      modifies this
      ensures Valid() && Quiet(req, old(Here()), Here()) && old(history) <= history
      ensures (req in Now().requests <==> req in old(Now()).requests)
      ensures req in Now().requests ==> Now().requests[req] == old(Now()).requests[req]
    {
      hide Run;
    }

    ghost method Record(step: Step, before: State)
      requires Run(lib, env, stored, history) == Some(before) && Enabled(lib, env, before, step)
      requires Apply(lib, env, before, step).rows == rows && Apply(lib, env, before, step).entries == entries
      modifies this`history
      ensures Valid() && history == old(history) + [step] && Now() == Apply(lib, env, before, step)
    {
      hide Apply, Enabled;
      history := history + [step];
      assert history[..|history| - 1] == old(history);
    }

    /** The request ends here. */
    ghost method End(req: Req)
      requires Valid() && req in Now().requests
      modifies this`history
      ensures Valid() && history == old(history) + [Drop(req)] && Quiet(req, old(Here()), Here())
    {
      hide Run;
      Record(Drop(req), Now());
    }

    // ---------- the calls of a request ----------

    /** `orderCommand.create`: refused for an id already in use, and for decimals the database cannot read. */
    method CreateRow(req: Req, d: Draft, took: bool, heard: bool) returns (created: Option<bool>)
      requires Valid() && In(req, Creating(d))
      modifies this`rows, this`history
      ensures Valid() && Quiet(req, old(Here()), Here()) && old(history) <= history
      ensures created == Some(true) ==> In(req, Appending(d, false)) && Stored(lib, rows, d)
      ensures created == Some(false) ==> In(req, Comparing(d)) && d.orderId in rows && rows == old(rows)
      ensures created == Some(true) <==> took && heard && d.orderId !in old(rows) && RowAccepted(lib, d)
      ensures created == Some(false) <==> took && heard && d.orderId in old(rows)
    {
      ghost var (before, from) := (Now(), Here());
      hide Run, StoredIntent, RowAccepted, Apply, Enabled, Quiet, KeepsIntents;
      CreateDoes(lib, env, before, req);
      KeepsNewIntents(rows, d.orderId, CreatedRow(lib, d));
      if !took || (d.orderId in rows && !heard) || (d.orderId !in rows && !RowAccepted(lib, d)) {
        End(req);
        return None;
      }
      if d.orderId in rows {
        Record(Clash(req), before);
        QuietStep(req, from, Here(), Clash(req));
        return Some(false);
      }
      rows := rows[d.orderId := CreatedRow(lib, d)];
      Record(Create(req), before);
      QuietStep(req, from, Here(), Create(req));
      if !heard {
        ghost var stored := Here();
        End(req);
        QuietComposes(req, from, stored, Here());
        return None;
      }
      created := Some(true);
    }

    lemma KeepsNewIntents(rows: Rows, id: OrderId, row: Row)
      ensures KeepsIntents(rows, rows) && (id !in rows ==> KeepsIntents(rows, rows[id := row]))
    {
    }

    /** `findUnique` and the two checks on what it finds: the same intent, and an append to take up again. */
    method CompareRow(req: Req, d: Draft) returns (found: Row, same: bool, retry: bool)
      requires Valid() && In(req, Comparing(d)) && d.orderId in rows
      modifies this`history
      ensures Valid() && Quiet(req, old(Here()), Here()) && old(history) <= history
      ensures found == rows[d.orderId] && same == SameIntent(lib, Some(found), d)
      ensures retry == (same && found.status == StreamAppendFailed)
      ensures retry ==> In(req, Appending(d, true))
    {
      hide Run, SameIntent;
      found := rows[d.orderId];
      same := SameIntent(lib, Some(found), d);
      retry := same && found.status == StreamAppendFailed;
      Record(Compare(req), Now());
    }

    /** XADD of the draft's entry; without an answer the entry may still be there. */
    method AppendEntry(req: Req, d: Draft, retry: bool, took: bool, heard: bool) returns (done: bool)
      requires Valid() && In(req, Appending(d, retry))
      modifies this`entries, this`history
      ensures Valid() && old(history) <= history && old(entries) <= entries && rows == old(rows)
      ensures done ==> entries == old(entries) + [d.entry] && (retry ==> In(req, Resetting(d)))
      ensures !done ==> In(req, Failing(d))
      ensures done <==> took && heard
      ensures took ==> entries == old(entries) + [d.entry]
      ensures !took ==> entries == old(entries)
    {
      ghost var before := Now();
      hide Run, Apply, Enabled;
      AppendDoes(lib, env, before, req, heard);
      if took {
        entries := entries + [d.entry];
        Record(Append(req, heard), before);
        done := heard;
      } else {
        Record(AppendFails(req), before);
        done := false;
      }
    }

    /** The update that follows a failed append, or the first append of a retry; its own failure is swallowed. */
    method UpdateStatus(req: Req, d: Draft, failed: bool, happens: bool)
      requires Valid() && In(req, if failed then Failing(d) else Resetting(d)) && d.orderId in rows
      modifies this`rows, this`history
      ensures Valid() && Quiet(req, old(Here()), Here()) && old(history) <= history
      ensures rows == if !happens then old(rows)
                      else if failed
                      then old(rows)[d.orderId := old(rows)[d.orderId].(status := StreamAppendFailed,
                               errorMsg := Some("Redis stream append failed"))]
                      else old(rows)[d.orderId := old(rows)[d.orderId].(status := Received, errorMsg := None)]
    {
      ghost var before := Now();
      ghost var from := Here();
      hide Run, Apply, Enabled, Quiet, KeepsIntents;
      UpdateDoes(lib, env, before, req);
      var found := rows[d.orderId];
      var marked := if failed then found.(status := StreamAppendFailed, errorMsg := Some(APPEND_FAILED))
                    else found.(status := Received, errorMsg := None);
      KeepsOneIntent(rows, d.orderId, marked);
      ghost var step := if !happens then Drop(req) else if failed then MarkFailed(req) else Reset(req);
      if happens {
        rows := rows[d.orderId := marked];
      }
      Record(step, before);
      QuietStep(req, from, Here(), step);
    }

    // ---------- POST /orders ----------

    /** The row of an order at a point of the history. */
    ghost function RowThen(n: nat, id: OrderId): Option<Row>
      requires n <= |history|
      reads this
    {
      var s := Run(lib, env, stored, history[..n]);
      if s.Some? then RowAt(s.value.rows, id) else None
    }

    lemma RowNow(id: OrderId)
      requires Valid()
      ensures RowThen(|history|, id) == RowAt(rows, id)
    {
      hide Run;
      assert history[..|history|] == history;
    }

    /** How a repeated request is answered that finds the row of the same intent. */
    ghost predicate Found(looked: nat, d: Draft, refusal: Option<Response>, retry: bool)
      requires looked <= |history|
      reads this
    {
      var row := RowThen(looked, d.orderId);
      && row.Some?
      && (retry <==> row.value.status == StreamAppendFailed)
      && refusal == if retry then None
                    else Some(Idempotent(if row.value.status == Received then Pending else row.value.status))
    }

    /**
      Storing the row of a new order, or finding the row of a repeated one: whether to append, and as a
      retry. `looked` is the point at which the row of a repeated order was read.
     */
    method Persist(req: Req, d: Draft, calls: PostCalls)
      returns (refusal: Option<Response>, retry: bool, ghost looked: nat)
      requires Valid() && In(req, Creating(d))
      modifies this
      ensures Valid() && Quiet(req, old(Here()), Here()) && looked <= |history| && old(history) <= history
      ensures refusal.None? ==> In(req, Appending(d, retry)) && Agrees(lib, rows, d)
      ensures refusal.Some? ==> refusal.value in {ServerError, Conflict} || refusal.value.Idempotent?
      ensures refusal == Some(Conflict) ==> d.orderId in rows && !Agrees(lib, rows, d)
      ensures refusal.Some? && refusal.value.Idempotent? ==> Agrees(lib, rows, d)
      ensures refusal == Some(ServerError) <==>
                || !calls.createTook || !calls.createHeard
                || (if d.orderId in old(rows) then !calls.found else !RowAccepted(lib, d))
      ensures refusal != Some(ServerError) && d.orderId !in old(rows) ==> refusal.None? && !retry
      ensures refusal != Some(ServerError) && d.orderId in old(rows) ==>
                && (refusal == Some(Conflict) <==> !Agrees(lib, old(rows), d))
                && (Agrees(lib, old(rows), d) ==> Found(looked, d, refusal, retry))
    {
      hide Run, Apply, Enabled, Agrees, SameIntent, StoredIntent, Quiet, RowAccepted, RowThen;
      retry, looked := false, |history|;
      ghost var from := Here();
      var created := CreateRow(req, d, calls.createTook, calls.createHeard);
      if created.None? {
        return Some(ServerError), false, looked;
      }
      if created.value {
        StoredAgrees(lib, rows, d);
        return None, false, looked;
      }
      ghost var clashed := Here();
      Interleave(req);
      QuietComposes(req, from, clashed, Here());
      QuietKeepsRow(req, clashed, Here(), d.orderId);
      QuietKeepsAgreement(req, clashed, Here(), d);
      ghost var interleaved := Here();
      if !calls.found {
        End(req);
        QuietComposes(req, from, interleaved, Here());
        return Some(ServerError), false, looked;
      }
      looked := |history|;
      RowNow(d.orderId);
      ghost var past := history;
      var found, same;
      found, same, retry := CompareRow(req, d);
      QuietComposes(req, from, interleaved, Here());
      AgreesIsSameIntent(lib, rows, d);
      RowStays(past, d.orderId);
      if !same {
        return Some(Conflict), false, looked;
      }
      refusal := if retry then None else Some(Idempotent(ReportedStatus(found.status)));
    }

    lemma QuietKeepsAgreement(req: Req, m: Moment, m': Moment, d: Draft)
      requires Quiet(req, m, m') && d.orderId in m.rows
      ensures Agrees(lib, m'.rows, d) <==> Agrees(lib, m.rows, d)
    {
      hide Agrees;
      AgreementLasts(lib, m.rows, m'.rows, d);
    }

    /** What the row was stays known. */
    lemma RowStays(past: seq<Step>, id: OrderId)
      requires past <= history && Run(lib, env, stored, past).Some?
      ensures RowThen(|past|, id) == RowAt(Run(lib, env, stored, past).value.rows, id)
    {
      hide Run;
      assert history[..|past|] == past;
    }

    ghost method StartPost(req: Req, now: string, request: Request, userId: string, orderId: string,
        requestId: Option<string>)
      requires Valid() && req !in Now().requests
          && CreateDraft(lib, env.(now := now), request, userId, orderId, requestId).Ok?
      modifies this`history
      ensures Valid() && Quiet(req, old(Here()), Here())
      ensures In(req, Creating(CreateDraft(lib, env.(now := now), request, userId, orderId, requestId).value))
    {
      hide Run, CreateDraft;
      Record(Post(req, now, request, userId, orderId, requestId), Now());
    }

    /** The steps from the draft on. */
    method PersistAndAppend(req: Req, d: Draft, calls: PostCalls) returns (response: Response, ghost looked: nat)
      requires Valid() && In(req, Creating(d))
      modifies this
      ensures Valid() && Follows(old(Here()), Here())
      ensures response == Conflict || response.Idempotent? ==> Quiet(req, old(Here()), Here())
      ensures response == Conflict ==> d.orderId in rows && !Agrees(lib, rows, d)
      ensures response in {Accepted, AppendFailed} || response.Idempotent? ==> Agrees(lib, rows, d)
      ensures response == Accepted ==> d.entry in entries
      ensures response in {Accepted, Conflict, AppendFailed, ServerError} || response.Idempotent?
      ensures looked <= |history|
      ensures Answered(old(rows), looked, d, calls, response)
    {
      hide Run, Apply, Enabled, Agrees, SameIntent, StoredIntent, Quiet, Follows, RowThen, RowAccepted;
      var refusal, retry;
      refusal, retry, looked := Persist(req, d, calls);
      QuietFollows(req, old(Here()), Here());
      if refusal.Some? {
        return refusal.value, looked;
      }
      ghost var (persisted, past) := (Here(), history);
      RowThenStays(past, looked, d.orderId);
      response := AppendAndNotify(req, d, retry, calls);
      FollowsOn(old(Here()), persisted, Here());
      RowThenStays(past, looked, d.orderId);
    }

    /** The steps from the stored row on. */
    method AppendAndNotify(req: Req, d: Draft, retry: bool, calls: PostCalls) returns (response: Response)
      requires Valid() && In(req, Appending(d, retry)) && Agrees(lib, rows, d)
      modifies this
      ensures Valid() && Follows(old(Here()), Here()) && old(history) <= history
      ensures Agrees(lib, rows, d) && (response == Accepted ==> d.entry in entries)
      ensures response == if !calls.appendTook || !calls.appendHeard then AppendFailed
                          else if calls.notice then Accepted else ServerError
    {
      hide Run, Apply, Enabled, Agrees, SameIntent, StoredIntent, Quiet, Follows, RowAccepted;
      Interleave(req);
      AgreementStays(lib, req, old(Here()), Here(), d);
      QuietFollows(req, old(Here()), Here());
      ghost var before := Here();
      var done := AppendEntry(req, d, retry, calls.appendTook, calls.appendHeard);
      AppendFollows(old(Here()), before, Here());
      ghost var appended := Here();
      if done && !retry {
        response := Published(calls.notice);
        return;
      }
      Interleave(req);
      AgreementStays(lib, req, appended, Here(), d);
      FollowsQuietly(req, old(Here()), appended, Here());
      ghost var interleaved := Here();
      UpdateStatus(req, d, !done, calls.update);
      AgreementStays(lib, req, interleaved, Here(), d);
      FollowsQuietly(req, old(Here()), interleaved, Here());
      if done {
        EntryStays(req, appended, interleaved, d.entry);
        EntryStays(req, interleaved, Here(), d.entry);
        response := Published(calls.notice);
        return;
      }
      response := AppendFailed;
    }

    /** The notice on the older channel, whose failure is a server error although the entry is there. */
    method Published(heard: bool) returns (response: Response)
      ensures response == if heard then Accepted else ServerError
    {
      response := if heard then Accepted else ServerError;
    }

    /**
      How a request with a draft is answered, given the rows before it, the point at which it read the
      row of a repeated order, and what became of its calls.
     */
    ghost predicate Answered(before: Rows, looked: nat, d: Draft, calls: PostCalls, response: Response)
      requires looked <= |history|
      reads this
    {
      var repeated := d.orderId in before;
      if !calls.createTook || !calls.createHeard || (if repeated then !calls.found else !RowAccepted(lib, d))
      then response == ServerError
      else if repeated && !Agrees(lib, before, d) then response == Conflict
      else if repeated && RowThen(looked, d.orderId).None? then false
      else if repeated && RowThen(looked, d.orderId).value.status != StreamAppendFailed
      then
        var status := RowThen(looked, d.orderId).value.status;
        response == Idempotent(if status == Received then Pending else status)
      else if !calls.appendTook || !calls.appendHeard then response == AppendFailed
      else if !calls.notice then response == ServerError
      else response == Accepted
    }

    lemma RowThenStays(past: seq<Step>, looked: nat, id: OrderId)
      requires past <= history && looked <= |past|
      ensures RowThen(looked, id) ==
              var s := Run(lib, env, stored, past[..looked]); if s.Some? then RowAt(s.value.rows, id) else None
    {
      hide Run;
      assert history[..looked] == past[..looked];
    }

    /**
      `POST /orders`. The entry is appended only for a row of the same intent, and never for a
      mismatched, an already accepted or a refused request; an accepted request has its entry in the stream.
     */
    method PostOrder(req: Req, now: string, request: Request, userId: string, orderId: string,
        requestId: Option<string>,
                     filtersPass: bool, calls: PostCalls)
      returns (response: Response, ghost draft: Option<Draft>, ghost looked: nat)
      requires Valid() && req !in Now().requests
      modifies this
      ensures Valid() && KeepsIntents(old(rows), rows) && old(entries) <= entries && old(history) <= history
      ensures draft.Some? ==> draft.value.orderId == orderId && draft.value.userId == userId
      ensures response in {BadRequest, Conflict} || response.Idempotent? ==> NoAppendOf(history, |old(history)|, req)
      ensures response == Conflict ==> draft.Some? && orderId in rows && !Agrees(lib, rows, draft.value)
      ensures response == Accepted ==> draft.Some? && Agrees(lib, rows, draft.value) && draft.value.entry in entries
      ensures response == AppendFailed || response.Idempotent? ==> draft.Some? && Agrees(lib, rows, draft.value)
      ensures response in {Accepted, BadRequest, Conflict, AppendFailed, ServerError} || response.Idempotent?
      ensures looked <= |history|
      ensures response in {Accepted, AppendFailed} || response.Idempotent? ==>
                orderId in rows && IsRequested(lib, rows[orderId].intent, request, userId)
      ensures var created := CreateDraft(lib, env.(now := now), request, userId, orderId, requestId);
              && (response == BadRequest <==> created.Err? || !filtersPass)
              && (created.Ok? && filtersPass ==>
                    && draft == Some(created.value) && Answered(old(rows), looked, created.value, calls, response))
    {
      hide Run, Apply, Enabled, Agrees, SameIntent, StoredIntent, CreateDraft, Answered, RowThen, IsRequested;
      looked := |history|;
      var created := CreateDraft(lib, env.(now := now), request, userId, orderId, requestId);
      if created.Err? || !filtersPass {
        return BadRequest, None, looked;
      }
      var d := created.value;
      draft := Some(d);
      StartPost(req, now, request, userId, orderId, requestId);
      response, looked := PersistAndAppend(req, d, calls);
      DraftStoresRequest(lib, env.(now := now), request, userId, orderId, requestId);
      AgreesIsRequested(lib, rows, d, request, userId);
    }

    lemma QuietKeepsRow(req: Req, m: Moment, m': Moment, id: OrderId)
      requires Quiet(req, m, m') && id in m.rows
      ensures id in m'.rows
    {
    }

    lemma AgreesIsSameIntent(lib: Library, rows: Rows, d: Draft)
      requires d.orderId in rows
      ensures Agrees(lib, rows, d) <==> SameIntent(lib, Some(rows[d.orderId]), d)
    {
      hide SameIntent;
    }
  }
}
