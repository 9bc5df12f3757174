/**
  The session operations as the source runs them, one awaited database call after another, with
  other requests free to act before each call. The table keeps the history that produced it, so
  every fact about histories is a fact about the table.
 */
module SessionService {
  import opened Wrappers
  import opened Sessions

  datatype Outcome =
    | Refreshed(newId: Id) | RefreshRequired | InvalidRefresh | RefreshReused | RefreshRevoked | RefreshExpired

  /** No step of the request since the given point. */
  ghost predicate NoStepOf(history: seq<Step>, from: nat, req: Id) {
    forall i :: from <= i < |history| ==> history[i].req != req
  }

  class SessionTable {
    var rows: Db
    ghost var history: seq<Step>

    ghost predicate Valid()
      reads this
    {
      StateAfter(history) == Some(rows)
    }

    constructor ()
      ensures Valid() && history == []
    {
      rows := map[];
      history := [];
    }

    /** What the other requests do before a call of req: any number of steps of theirs, possibly none. */
    method Interleave(req: Id)
      requires Valid()
      modifies this
      ensures Valid() && old(history) <= history && NoStepOf(history, |old(history)|, req)
    {
    }

    method Find(id: Id) returns (session: Option<Session>)
      ensures session == if id in rows then Some(rows[id]) else None
    {
      session := if id in rows then Some(rows[id]) else None;
    }

    ghost method Record(step: Step, before: Db)
      requires StateAfter(history) == Some(before) && Enabled(before, step) && rows == Apply(before, step)
      modifies this`history
      ensures Valid() && history == old(history) + [step]
    {
      hide Apply, Enabled;
      history := history + [step];
      assert history[..|history| - 1] == old(history);
    }

    /** An id no row has: one more than the largest in use. */
    method FreshId() returns (id: Id)
      ensures id !in rows
    {
      var keys := rows.Keys;
      id := 0;
      while keys != {}
        invariant keys <= rows.Keys
        invariant forall k :: k in rows && k !in keys ==> k < id
        decreases keys
      {
        var k :| k in keys;
        if k >= id {
          id := k + 1;
        }
        keys := keys - {k};
      }
    }

    /** `createRefreshSession` at login or registration: a session that starts a family of its own. */
    method CreateFamily(req: Id, user: Id, family: Id, expiresAt: int) returns (id: Id)
      requires Valid() && forall other :: other in rows ==> rows[other].family != family
      modifies this
      ensures Valid() && history == old(history) + [Login(req, id, user, family, expiresAt)]
      ensures id !in old(rows)
    {
      id := FreshId();
      ghost var before := rows;
      rows := rows[id := NewSession(user, family, None, expiresAt)];
      Record(Login(req, id, user, family, expiresAt), before);
    }

    /** The rotating transaction: claim the row if it is active, create its successor, link the two. */
    method ClaimCreateLink(req: Id, id: Id, session: Session, now: int, expiresAt: int) returns (newId: Option<Id>)
      requires Valid() && id in rows && SameIdentity(session, rows[id])
      modifies this
      ensures Valid()
      ensures newId.Some? <==>
                old(rows)[id].rotatedAt.None? && old(rows)[id].revokedAt.None? && old(rows)[id].expiresAt > now
      ensures newId.Some? ==>
                && newId.value in rows
                && rows[newId.value] ==
                     Session(session.user, session.family, Some(id), None, expiresAt, None, None, None)
                && id in rows && rows[id] == old(rows)[id].(rotatedAt := Some(now), replacedBy := newId)
                && rows.Keys == old(rows).Keys + {newId.value}
                && forall other :: other in old(rows) && other != id ==> rows[other] == old(rows)[other]
      ensures newId.Some? ==> history == old(history) + [Rotate(req, id, now, newId.value, expiresAt)] &&
                              newId.value !in old(rows) && rows == Rotated(old(rows), id, now, newId.value, expiresAt)
      ensures newId.None? ==> history == old(history) && rows == old(rows)
    {
      if !Active(rows[id], now) {
        return None;
      }
      var created := FreshId();
      ghost var before := rows;
      rows := rows[id := rows[id].(rotatedAt := Some(now))];
      rows := rows[created := NewSession(session.user, session.family, Some(id), expiresAt)];
      rows := rows[id := rows[id].(replacedBy := Some(created))];
      assert rows == Rotated(before, id, now, created, expiresAt);
      Record(Rotate(req, id, now, created, expiresAt), before);
      newId := Some(created);
    }

    /** `revokeSessionFamily` with the reuse reason. */
    method RevokeFamilyRows(req: Id, family: Id, now: int)
      requires Valid()
      modifies this
      ensures Valid() && history == old(history) + [RevokeFamily(req, family, now)]
      ensures rows == FamilyRevoked(old(rows), family, now)
    {
      ghost var before := rows;
      rows := FamilyRevoked(rows, family, now);
      Record(RevokeFamily(req, family, now), before);
    }

    method ExpireRow(req: Id, id: Id, now: int)
      requires Valid() && id in rows
      modifies this
      ensures Valid() && history == old(history) + [Expire(req, id, now)]
      ensures rows == old(rows)[id := Revoked(old(rows)[id], now, Expired)]
    {
      ghost var before := rows;
      rows := rows[id := Revoked(rows[id], now, Expired)];
      Record(Expire(req, id, now), before);
    }

    method LogoutRow(req: Id, id: Id, now: int)
      requires Valid()
      modifies this
      ensures Valid() && history == old(history) + [Logout(req, id, now)]
      ensures rows == if id in old(rows) then old(rows)[id :=
          RevokedIfLive(old(rows)[id], now, LoggedOut)] else old(rows)
    {
      ghost var before := rows;
      if id in rows {
        rows := rows[id := RevokedIfLive(rows[id], now, LoggedOut)];
      }
      Record(Logout(req, id, now), before);
    }

    /** A row that was there is there, with the same user, family, parent and expiry. */
    lemma StillThere(past: seq<Step>, id: Id)
      requires Valid() && past <= history && StateAfter(past).Some? && id in StateAfter(past).value
      ensures id in rows && SameIdentity(StateAfter(past).value[id], rows[id])
    {
      assert history[..|past|] == past;
      IdentityStays(history, |past|, id);
    }

    /** A row that is not rotated is its family's tail, so revoking it kills the family. */
    lemma UnrotatedRevokedKills(id: Id)
      requires Valid() && id in rows && rows[id].rotatedAt.None? && rows[id].revokedAt.Some?
      ensures TailRevoked(rows, rows[id].family)
    {
      hide Chained, TailRevoked, StateAfter;
      FamiliesAreChains(history);
      RevokedTailKillsFamily(rows, id);
    }

    /** The row of a token at a point of the history. */
    ghost function RowThen(n: nat, id: Id): Option<Session>
      requires n <= |history|
      reads this`history
    {
      var db := StateAfter(history[..n]);
      if db.Some? && id in db.value then Some(db.value[id]) else None
    }

    /** A rotated row stays rotated. */
    lemma StillRotated(past: seq<Step>, id: Id)
      requires Valid() && past <= history && StateAfter(past).Some? && id in StateAfter(past).value
      requires StateAfter(past).value[id].rotatedAt.Some?
      ensures id in rows && rows[id].rotatedAt.Some?
    {
      assert history[..|past|] == past;
      StillThere(past, id);
      RotatedStaysRotated(history, |past|, id);
    }

    /** What the row was stays known. */
    lemma PastRow(past: seq<Step>, id: Id)
      requires past <= history && StateAfter(past).Some?
      ensures RowThen(|past|, id) == if id in StateAfter(past).value then Some(StateAfter(past).value[id]) else None
    {
      assert history[..|past|] == past;
    }

    /**
      `refreshAuthSession`; req names this call and has taken no step before it. `looked` is the point
      at which it read its row, `claimed` the one at which it tried to claim it. What it read decides:
      no row is invalid, a rotated one is reuse, a revoked one is refused, an expired one is revoked,
      and any other is rotated unless it is no longer active when it is claimed, which is reuse, too.
     */
    method RefreshAuthSession(req: Id, token: Option<Id>, now: int, ttl: nat)
      returns (outcome: Outcome, ghost looked: nat, ghost claimed: nat)
      requires Valid()
      modifies this
      ensures Valid() && old(history) <= history
      ensures outcome.RefreshRequired? <==> token.None?
      ensures |old(history)| <= looked <= claimed <= |history|
      ensures token.Some? ==>
                var row := RowThen(looked, token.value);
                && (outcome.InvalidRefresh? <==> row.None?)
                && (row.Some? && row.value.rotatedAt.Some? && row.value.revokedAt.None? ==> outcome.RefreshReused?)
                && (outcome.RefreshRevoked? <==> row.Some? && row.value.revokedAt.Some?)
      ensures token.Some? ==>
                var row := RowThen(looked, token.value);
                var unspent := row.Some? && row.value.rotatedAt.None? && row.value.revokedAt.None?;
                && (outcome.RefreshExpired? <==> unspent && row.value.expiresAt <= now)
                && (unspent && row.value.expiresAt > now ==>
                      var current := RowThen(claimed, token.value);
                      && current.Some?
                      && (outcome.Refreshed? <==> current.value.rotatedAt.None? && current.value.revokedAt.None?)
                      && (outcome.RefreshReused? <==> current.value.rotatedAt.Some? || current.value.revokedAt.Some?))
      ensures token.Some? && token.value in old(rows) && old(rows)[token.value].rotatedAt.Some? ==>
                && (outcome.RefreshReused? || outcome.RefreshRevoked?)
                && token.value in rows && rows[token.value].revokedAt.Some?
      ensures outcome.RefreshRevoked? ==>
                token.Some? && token.value in rows && rows[token.value].revokedAt.Some?
      ensures outcome.RefreshExpired? ==>
                && token.Some? && token.value in rows
                && rows[token.value].expiresAt <= now && rows[token.value].revokedAt == Some(now)
                && rows[token.value].revokeReason == Some(Expired)
      ensures outcome.Refreshed? ==>
                && token.Some? && token.value in rows && outcome.newId in rows
                && rows[token.value].rotatedAt == Some(now)
                && rows[outcome.newId] == Session(rows[token.value].user, rows[token.value].family, token, None,
                     now + ttl, None, None, None)
      ensures outcome.Refreshed? ==>
                && token.Some? && token.value in rows && rows[token.value].replacedBy == Some(outcome.newId)
                && history[|history| - 1] == Rotate(req, token.value, now, outcome.newId, now + ttl)
                && |history| > |old(history)| && NoStepOf(history[..|history| - 1], |old(history)|, req)
      ensures outcome.RefreshReused? ==>
                token.Some? && token.value in rows && AllRevoked(rows, rows[token.value].family)
      ensures outcome.RefreshExpired? ==>
                && token.Some? && token.value in rows && rows[token.value].revokedAt.Some?
                && (rows[token.value].rotatedAt.None? ==> TailRevoked(rows, rows[token.value].family))
      ensures outcome.RefreshRequired? || outcome.InvalidRefresh? || outcome.RefreshRevoked? ==>
                NoStepOf(history, |old(history)|, req)
    {
      hide StateAfter, Apply, Enabled, FamilyRevoked, TailRevoked, AllRevoked;
      looked, claimed := |history|, |history|;
      if token.None? {
        return RefreshRequired, looked, claimed;
      }
      var id := token.value;
      ghost var entered := history;
      Interleave(req);
      if id in StateAfter(entered).value && StateAfter(entered).value[id].rotatedAt.Some? {
        StillRotated(entered, id);
      }
      looked, claimed := |history|, |history|;
      ghost var seen := history;
      PastRow(seen, id);
      var found := Find(id);
      if found.None? {
        return InvalidRefresh, looked, claimed;
      }
      var session := found.value;
      if session.rotatedAt.Some? && session.revokedAt.None? {
        Interleave(req);
        StillThere(seen, id);
        RevokeReusedFamily(req, id, session.family, now);
        PastRow(seen, id);
        return RefreshReused, looked, claimed;
      }
      if session.revokedAt.Some? {
        return RefreshRevoked, looked, claimed;
      }
      outcome, claimed := RefreshUnspent(req, id, session, now, ttl);
      PastRow(seen, id);
      return outcome, looked, claimed;
    }

    /** The rest of it for a row that was neither rotated nor revoked when it was read. */
    method RefreshUnspent(req: Id, id: Id, session: Session, now: int, ttl: nat)
      returns (outcome: Outcome, ghost claimed: nat)
      requires Valid() && id in rows && rows[id] == session && session.rotatedAt.None? && session.revokedAt.None?
      modifies this
      ensures Valid() && old(history) <= history && |old(history)| <= claimed <= |history| && id in rows
      ensures outcome.RefreshExpired? || outcome.RefreshReused? || outcome.Refreshed?
      ensures outcome.RefreshExpired? <==> session.expiresAt <= now
      ensures session.expiresAt > now ==>
                var current := RowThen(claimed, id);
                && current.Some?
                && (outcome.Refreshed? <==> current.value.rotatedAt.None? && current.value.revokedAt.None?)
                && (outcome.RefreshReused? <==> current.value.rotatedAt.Some? || current.value.revokedAt.Some?)
      ensures outcome.RefreshExpired? ==>
                && rows[id].expiresAt <= now && rows[id].revokedAt == Some(now)
                && rows[id].revokeReason == Some(Expired)
                && (rows[id].rotatedAt.None? ==> TailRevoked(rows, rows[id].family))
      ensures outcome.RefreshReused? ==> AllRevoked(rows, rows[id].family) && rows[id].revokedAt.Some?
      ensures outcome.Refreshed? ==>
                && outcome.newId in rows && rows[id].rotatedAt == Some(now)
                && rows[id].replacedBy == Some(outcome.newId)
                && rows[outcome.newId] ==
                     Session(rows[id].user, rows[id].family, Some(id), None, now + ttl, None, None, None)
                && |history| > |old(history)|
                && history[|history| - 1] == Rotate(req, id, now, outcome.newId, now + ttl)
                && NoStepOf(history[..|history| - 1], |old(history)|, req)
    {
      hide StateAfter, Apply, Enabled, FamilyRevoked, TailRevoked, AllRevoked;
      ghost var seen := history;
      claimed := |history|;
      if session.expiresAt <= now {
        Interleave(req);
        StillThere(seen, id);
        ExpireRow(req, id, now);
        if rows[id].rotatedAt.None? {
          UnrotatedRevokedKills(id);
        }
        return RefreshExpired, claimed;
      }
      // The source's remaining activity check cannot fail here.
      assert Active(session, now);
      Interleave(req);
      StillThere(seen, id);
      claimed := |history|;
      ghost var tried := history;
      var next := ClaimCreateLink(req, id, session, now, now + ttl);
      if next.None? {
        Interleave(req);
        StillThere(tried, id);
        RevokeReusedFamily(req, id, session.family, now);
        PastRow(tried, id);
        return RefreshReused, claimed;
      }
      PastRow(tried, id);
      return Refreshed(next.value), claimed;
    }

    method RevokeReusedFamily(req: Id, id: Id, family: Id, now: int)
      requires Valid() && id in rows && rows[id].family == family
      modifies this
      ensures Valid() && history == old(history) + [RevokeFamily(req, family, now)]
      ensures id in rows && rows[id].family == family && AllRevoked(rows, family) && rows[id].revokedAt.Some?
      ensures rows.Keys == old(rows).Keys
      ensures forall other :: other in old(rows) ==>
                rows[other] == if old(rows)[other].family == family && old(rows)[other].revokedAt.None?
                               then old(rows)[other].(revokedAt := Some(now), revokeReason := Some(RefreshReuse))
                               else old(rows)[other]
    {
      ReuseRevokesFamily(rows, id, now);
      RevokeFamilyRows(req, family, now);
    }

    /** `logoutRefreshSession`: by token if there is one, otherwise by session id. */
    method LogoutRefreshSession(req: Id, token: Option<Id>, sessionId: Option<Id>, now: int)
      returns (done: bool, ghost looked: nat)
      requires Valid()
      modifies this
      ensures Valid() && old(history) <= history
      ensures token.Some? && done ==>
                && token.value in rows && rows[token.value].revokedAt.Some?
                && (rows[token.value].rotatedAt.None? ==> TailRevoked(rows, rows[token.value].family))
      ensures token.None? ==> (done <==> sessionId.Some?)
      ensures |old(history)| <= looked <= |history|
      ensures token.Some? ==> (done <==> RowThen(looked, token.value).Some?)
      ensures token.None? && sessionId.Some? && sessionId.value in rows ==> rows[sessionId.value].revokedAt.Some?
      ensures !done ==> NoStepOf(history, |old(history)|, req)
    {
      hide StateAfter, Apply, Enabled, TailRevoked;
      looked := |history|;
      if token.Some? {
        Interleave(req);
        looked := |history|;
        ghost var seen := history;
        PastRow(seen, token.value);
        var session := Find(token.value);
        if session.None? {
          return false, looked;
        }
        Interleave(req);
        StillThere(seen, token.value);
        LogoutRow(req, token.value, now);
        if rows[token.value].rotatedAt.None? {
          UnrotatedRevokedKills(token.value);
        }
        PastRow(seen, token.value);
        return true, looked;
      }
      if sessionId.Some? {
        Interleave(req);
        LogoutRow(req, sessionId.value, now);
        return true, looked;
      }
      return false, looked;
    }
  }
}
