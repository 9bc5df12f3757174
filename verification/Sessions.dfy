/**
  Refresh-session rotation with reuse detection, as a history of atomic database steps. Any request
  may take any step at any time with any arguments, so the histories include every interleaving of
  logins, refreshes and logouts, cut off anywhere. A token and its hash are the session's id.
 */
module Sessions {
  import opened Wrappers

  type Id = nat

  datatype Reason = RefreshReuse | Expired | LoggedOut

  datatype Session = Session(
    user: Id, family: Id, parent: Option<Id>, replacedBy: Option<Id>,
    expiresAt: int, rotatedAt: Option<int>, revokedAt: Option<int>, revokeReason: Option<Reason>)

  type Db = map<Id, Session>

  /** `req` names the request that takes the step. */
  datatype Step =
    | Login(req: Id, id: Id, user: Id, family: Id, expiresAt: int)
    | Rotate(req: Id, id: Id, now: int, newId: Id, expiresAt: int)
    | RevokeFamily(req: Id, family: Id, now: int)
    | Expire(req: Id, id: Id, now: int)
    | Logout(req: Id, id: Id, now: int)

  /** The row condition of the claiming update, which is also `isRefreshSessionActive`. */
  predicate Active(session: Session, now: int) {
    session.rotatedAt.None? && session.revokedAt.None? && session.expiresAt > now
  }

  predicate Enabled(db: Db, step: Step) {
    match step
    case Login(_, id, _, family, _) => id !in db && forall other :: other in db ==> db[other].family != family
    case Rotate(_, id, now, newId, _) => id in db && Active(db[id], now) && newId !in db
    case Expire(_, id, _) => id in db
    case _ => true
  }

  function NewSession(user: Id, family: Id, parent: Option<Id>, expiresAt: int): Session {
    Session(user, family, parent, None, expiresAt, None, None, None)
  }

  function Revoked(session: Session, now: int, reason: Reason): Session {
    session.(revokedAt := Some(now), revokeReason := Some(reason))
  }

  function RevokedIfLive(session: Session, now: int, reason: Reason): Session {
    if session.revokedAt.Some? then session else Revoked(session, now, reason)
  }

  function FamilyRevoked(db: Db, family: Id, now: int): Db {
    map id | id in db :: if db[id].family == family then RevokedIfLive(db[id], now, RefreshReuse) else db[id]
  }

  /** Claim, create and link: one transaction. */
  function Rotated(db: Db, id: Id, now: int, newId: Id, expiresAt: int): Db
    requires id in db
  {
    db[newId := NewSession(db[id].user, db[id].family, Some(id), expiresAt)]
      [id := db[id].(rotatedAt := Some(now), replacedBy := Some(newId))]
  }

  function Apply(db: Db, step: Step): Db
    requires Enabled(db, step)
  {
    match step
    case Login(_, id, user, family, expiresAt) => db[id := NewSession(user, family, None, expiresAt)]
    case Rotate(_, id, now, newId, expiresAt) => Rotated(db, id, now, newId, expiresAt)
    case RevokeFamily(_, family, now) => FamilyRevoked(db, family, now)
    case Expire(_, id, now) => db[id := Revoked(db[id], now, Expired)]
    case Logout(_, id, now) => if id in db then db[id := RevokedIfLive(db[id], now, LoggedOut)] else db
  }

  /** The database after a history, absent when some step was not possible. */
  function StateAfter(history: seq<Step>): Option<Db> {
    if history == [] then Some(map[])
    else
      var before := StateAfter(history[..|history| - 1]);
      if before.Some? && Enabled(before.value, history[|history| - 1])
      then Some(Apply(before.value, history[|history| - 1])) else None
  }

  // ---------- the linear chain ----------

  /** chain lists the sessions of a family, each once, from the login to the tail. */
  ghost predicate IsChain(db: Db, family: Id, chain: seq<Id>) {
    && chain != []
    && (forall i :: 0 <= i < |chain| ==> chain[i] in db && db[chain[i]].family == family)
    && (forall i, j :: 0 <= i < j < |chain| ==> chain[i] != chain[j])
    && (forall id :: id in db && db[id].family == family ==> id in chain)
    && (forall i :: 0 <= i < |chain| - 1 ==> Linked(db, chain[i], chain[i + 1]))
    && db[chain[0]].parent.None?
    && db[chain[|chain| - 1]].rotatedAt.None? && db[chain[|chain| - 1]].replacedBy.None?
  }

  /** older was replaced by newer, for the same user. */
  predicate Linked(db: Db, older: Id, newer: Id)
    requires older in db && newer in db
  {
    && db[older].rotatedAt.Some? && db[older].replacedBy == Some(newer)
    && db[newer].parent == Some(older) && db[newer].user == db[older].user
  }

  ghost predicate Chained(db: Db) {
    forall id :: id in db ==> exists chain :: IsChain(db, db[id].family, chain)
  }

  /** Only revocation marks differ, and none is taken back. */
  predicate SameLinks(a: Session, b: Session) {
    && a.user == b.user && a.family == b.family && a.parent == b.parent && a.replacedBy == b.replacedBy
    && a.rotatedAt == b.rotatedAt && a.expiresAt == b.expiresAt
    && (a.revokedAt.Some? ==> b.revokedAt.Some?)
  }

  predicate SameShape(db: Db, db': Db) {
    db.Keys == db'.Keys && forall id :: id in db ==> SameLinks(db[id], db'[id])
  }

  lemma SameShapeSameChain(db: Db, db': Db, family: Id, chain: seq<Id>)
    requires SameShape(db, db') && IsChain(db, family, chain)
    ensures IsChain(db', family, chain)
  {
    forall i | 0 <= i < |chain|
      ensures chain[i] in db' && SameLinks(db[chain[i]], db'[chain[i]])
    {
      assert chain[i] in db;
    }
    forall i | 0 <= i < |chain| - 1
      ensures Linked(db', chain[i], chain[i + 1])
    {
      assert Linked(db, chain[i], chain[i + 1]);
    }
    forall id | id in db' && db'[id].family == family
      ensures id in chain
    {
      assert SameLinks(db[id], db'[id]);
    }
  }

  lemma {:induction false} SameShapeKeepsChained(db: Db, db': Db)
    requires SameShape(db, db') && Chained(db)
    ensures Chained(db')
  {
    hide IsChain;
    forall id | id in db'
      ensures exists chain :: IsChain(db', db'[id].family, chain)
    {
      assert SameLinks(db[id], db'[id]);
      var chain :| IsChain(db, db[id].family, chain);
      SameShapeSameChain(db, db', db[id].family, chain);
    }
  }

  /** A chain of another family is untouched when rows outside that family change or appear. */
  lemma OtherChainsStay(db: Db, db': Db, family: Id, chain: seq<Id>)
    requires IsChain(db, family, chain)
    requires forall id :: id in db && db[id].family == family ==> id in db' && db'[id] == db[id]
    requires forall id :: id in db' && db'[id].family == family ==> id in db && db[id].family == family
    ensures IsChain(db', family, chain)
  {
  }

  lemma LoginKeepsChained(db: Db, id: Id, user: Id, family: Id, expiresAt: int)
    requires Chained(db) && Enabled(db, Login(0, id, user, family, expiresAt))
    ensures Chained(db[id := NewSession(user, family, None, expiresAt)])
  {
    hide IsChain;
    var db' := db[id := NewSession(user, family, None, expiresAt)];
    NewFamilyIsChain(db, id, user, family, expiresAt);
    forall other | other in db'
      ensures exists chain :: IsChain(db', db'[other].family, chain)
    {
      if other == id {
        assert IsChain(db', db'[id].family, [id]);
      } else {
        var chain :| IsChain(db, db[other].family, chain);
        OtherChainsStay(db, db', db[other].family, chain);
      }
    }
  }

  lemma NewFamilyIsChain(db: Db, id: Id, user: Id, family: Id, expiresAt: int)
    requires Enabled(db, Login(0, id, user, family, expiresAt))
    ensures IsChain(db[id := NewSession(user, family, None, expiresAt)], family, [id])
  {
  }

  /** Only the last session of a chain is not rotated. */
  lemma UnrotatedIsTail(db: Db, family: Id, chain: seq<Id>, id: Id)
    requires IsChain(db, family, chain) && id in db && db[id].family == family
    ensures db[id].rotatedAt.None? <==> id == chain[|chain| - 1]
  {
    var i :| 0 <= i < |chain| && chain[i] == id;
    assert i < |chain| - 1 ==> Linked(db, chain[i], chain[i + 1]);
  }

  lemma RotateExtendsChain(db: Db, id: Id, now: int, newId: Id, expiresAt: int, chain: seq<Id>)
    requires id in db && Active(db[id], now) && newId !in db && IsChain(db, db[id].family, chain)
    ensures IsChain(Rotated(db, id, now, newId, expiresAt), db[id].family, chain + [newId])
  {
    var db' := Rotated(db, id, now, newId, expiresAt);
    var chain' := chain + [newId];
    UnrotatedIsTail(db, db[id].family, chain, id);
    forall i | 0 <= i < |chain'|
      ensures chain'[i] in db' && db'[chain'[i]].family == db[id].family
    {
      assert i < |chain| ==> chain[i] in db;
    }
    forall i | 0 <= i < |chain'| - 1
      ensures Linked(db', chain'[i], chain'[i + 1])
    {
      if i < |chain| - 1 {
        assert Linked(db, chain[i], chain[i + 1]);
      }
    }
    assert chain'[0] == chain[0];
  }

  lemma {:induction false} RotateKeepsChained(db: Db, id: Id, now: int, newId: Id, expiresAt: int)
    requires Chained(db) && id in db && Active(db[id], now) && newId !in db
    ensures Chained(Rotated(db, id, now, newId, expiresAt))
  {
    hide IsChain, Active;
    var db' := Rotated(db, id, now, newId, expiresAt);
    var own :| IsChain(db, db[id].family, own);
    RotateExtendsChain(db, id, now, newId, expiresAt, own);
    forall other | other in db' && db'[other].family != db[id].family
      ensures exists chain :: IsChain(db', db'[other].family, chain)
    {
      var chain :| IsChain(db, db[other].family, chain);
      OtherChainsStay(db, db', db[other].family, chain);
    }
  }

  lemma StepKeepsChained(db: Db, step: Step)
    requires Chained(db) && Enabled(db, step)
    ensures Chained(Apply(db, step))
  {
    hide IsChain, Chained;
    match step {
      case Login(_, id, user, family, expiresAt) => LoginKeepsChained(db, id, user, family, expiresAt);
      case Rotate(_, id, now, newId, expiresAt) => RotateKeepsChained(db, id, now, newId, expiresAt);
      case _ => SameShapeKeepsChained(db, Apply(db, step));
    }
  }

  /** After any history, every family is one linear chain. */
  lemma {:induction false} FamiliesAreChains(history: seq<Step>)
    requires StateAfter(history).Some?
    ensures Chained(StateAfter(history).value)
  {
    if history != [] {
      hide Chained, Apply, Enabled;
      var n := |history| - 1;
      FamiliesAreChains(history[..n]);
      StepKeepsChained(StateAfter(history[..n]).value, history[n]);
    }
  }

  /** tail is the family's one session that is not rotated. */
  ghost predicate OnlyTail(db: Db, family: Id, tail: Id) {
    && tail in db && db[tail].family == family && db[tail].rotatedAt.None?
    && forall id :: id in db && db[id].family == family && db[id].rotatedAt.None? ==> id == tail
  }

  lemma ExactlyOneTail(db: Db, family: Id, chain: seq<Id>)
    requires IsChain(db, family, chain)
    ensures OnlyTail(db, family, chain[|chain| - 1])
  {
    forall id | id in db && db[id].family == family && db[id].rotatedAt.None?
      ensures id == chain[|chain| - 1]
    {
      UnrotatedIsTail(db, family, chain, id);
    }
  }

  /** A rotated session's replacement names it as parent, has its user, and is the only one of the family to do so. */
  lemma RotatedHasSuccessor(db: Db, family: Id, chain: seq<Id>, id: Id)
    requires IsChain(db, family, chain) && id in db && db[id].family == family && db[id].rotatedAt.Some?
    ensures db[id].replacedBy.Some? && db[id].replacedBy.value in db
    ensures var next := db[id].replacedBy.value;
            && db[next].family == family && Linked(db, id, next)
            && forall other :: other in db && db[other].family == family && db[other].parent == Some(id) ==>
                other == next
  {
    var i :| 0 <= i < |chain| && chain[i] == id;
    assert Linked(db, chain[i], chain[i + 1]);
    forall other | other in db && db[other].family == family && db[other].parent == Some(id)
      ensures other == chain[i + 1]
    {
      var j :| 0 <= j < |chain| && chain[j] == other;
      assert j > 0 ==> Linked(db, chain[j - 1], chain[j]);
    }
  }

  /** All sessions of a family belong to one user. */
  lemma {:induction false} ChainHasOneUser(db: Db, family: Id, chain: seq<Id>, i: nat)
    requires IsChain(db, family, chain) && i < |chain|
    ensures db[chain[i]].user == db[chain[0]].user
  {
    if i > 0 {
      ChainHasOneUser(db, family, chain, i - 1);
      assert Linked(db, chain[i - 1], chain[i]);
    }
  }

  // ---------- dead families ----------

  /** The family's unrotated session, its tail, is revoked. */
  ghost predicate TailRevoked(db: Db, family: Id) {
    && (exists id :: id in db && db[id].family == family)
    && forall id :: id in db && db[id].family == family && db[id].rotatedAt.None? ==> db[id].revokedAt.Some?
  }

  ghost predicate AllRevoked(db: Db, family: Id) {
    && (exists id :: id in db && db[id].family == family)
    && forall id :: id in db && db[id].family == family ==> db[id].revokedAt.Some?
  }

  ghost predicate NoneActive(db: Db, family: Id) {
    forall id, now :: id in db && db[id].family == family ==> !Active(db[id], now)
  }

  lemma StepKeepsDead(db: Db, step: Step, family: Id)
    requires Enabled(db, step) && TailRevoked(db, family)
    ensures TailRevoked(Apply(db, step), family)
    ensures AllRevoked(db, family) ==> AllRevoked(Apply(db, step), family)
  {
    var id :| id in db && db[id].family == family;
    assert id in Apply(db, step) && Apply(db, step)[id].family == family;
  }

  /** A prefix of a possible history was possible. */
  lemma {:induction false} PrefixIsPossible(history: seq<Step>, n: nat)
    requires StateAfter(history).Some? && n <= |history|
    ensures StateAfter(history[..n]).Some?
  {
    if n == |history| {
      assert history[..n] == history;
    } else {
      var m := |history| - 1;
      PrefixIsPossible(history[..m], n);
      assert history[..m][..n] == history[..n];
    }
  }

  /** Once a family's tail is revoked, no later step of any request makes one of its sessions active again. */
  lemma {:induction false} DeadFamiliesStayDead(history: seq<Step>, n: nat, family: Id)
    requires n <= |history| && StateAfter(history).Some? && StateAfter(history[..n]).Some?
    requires TailRevoked(StateAfter(history[..n]).value, family)
    ensures TailRevoked(StateAfter(history).value, family) && NoneActive(StateAfter(history).value, family)
    ensures AllRevoked(StateAfter(history[..n]).value, family) ==> AllRevoked(StateAfter(history).value, family)
  {
    if n == |history| {
      assert history[..n] == history;
    } else {
      var m := |history| - 1;
      PrefixIsPossible(history, m);
      assert history[..m][..n] == history[..n];
      DeadFamiliesStayDead(history[..m], n, family);
      hide Apply, Enabled, AllRevoked;
      StepKeepsDead(StateAfter(history[..m]).value, history[m], family);
    }
  }

  /** Reuse detection revokes every session of the family. */
  lemma ReuseRevokesFamily(db: Db, id: Id, now: int)
    requires id in db
    ensures AllRevoked(FamilyRevoked(db, db[id].family, now), db[id].family)
    ensures TailRevoked(FamilyRevoked(db, db[id].family, now), db[id].family)
  {
    var db' := FamilyRevoked(db, db[id].family, now);
    assert id in db' && db'[id].family == db[id].family;
  }

  /** Expiry or logout of a session that was never rotated revokes the family's tail. */
  lemma {:induction false} RevokedTailKillsFamily(db: Db, id: Id)
    requires Chained(db) && id in db && db[id].rotatedAt.None? && db[id].revokedAt.Some?
    ensures TailRevoked(db, db[id].family)
  {
    hide IsChain;
    var chain :| IsChain(db, db[id].family, chain);
    ExactlyOneTail(db, db[id].family, chain);
  }

  // ---------- one winner ----------

  predicate IsRotateOf(step: Step, id: Id) {
    step.Rotate? && step.id == id
  }

  lemma StepKeepsRotated(db: Db, step: Step, id: Id)
    requires Enabled(db, step) && id in db && db[id].rotatedAt.Some?
    ensures id in Apply(db, step) && Apply(db, step)[id].rotatedAt.Some?
    ensures !IsRotateOf(step, id)
  {
  }

  lemma {:induction false} RotatedStaysRotated(history: seq<Step>, n: nat, id: Id)
    requires n <= |history| && StateAfter(history).Some? && StateAfter(history[..n]).Some?
    requires id in StateAfter(history[..n]).value && StateAfter(history[..n]).value[id].rotatedAt.Some?
    ensures id in StateAfter(history).value && StateAfter(history).value[id].rotatedAt.Some?
  {
    if n == |history| {
      assert history[..n] == history;
    } else {
      var m := |history| - 1;
      PrefixIsPossible(history, m);
      assert history[..m][..n] == history[..n];
      RotatedStaysRotated(history[..m], n, id);
      hide Apply, Enabled;
      StepKeepsRotated(StateAfter(history[..m]).value, history[m], id);
    }
  }

  lemma StepAt(history: seq<Step>, i: nat)
    requires StateAfter(history).Some? && i < |history|
    ensures StateAfter(history[..i]).Some? && Enabled(StateAfter(history[..i]).value, history[i])
    ensures StateAfter(history[..i + 1]) == Some(Apply(StateAfter(history[..i]).value, history[i]))
  {
    hide Apply, Enabled;
    PrefixIsPossible(history, i + 1);
    assert history[..i + 1][..i] == history[..i];
  }

  /** However many requests present one token, at most one of them rotates it. */
  lemma OneRotationPerToken(history: seq<Step>, i: nat, j: nat, id: Id)
    requires StateAfter(history).Some? && i < |history| && j < |history|
    requires IsRotateOf(history[i], id) && IsRotateOf(history[j], id)
    ensures i == j
  {
    if i < j {
      LaterRotationIsImpossible(history, i, j, id);
    } else if j < i {
      LaterRotationIsImpossible(history, j, i, id);
    }
  }

  lemma LaterRotationIsImpossible(history: seq<Step>, i: nat, j: nat, id: Id)
    requires StateAfter(history).Some? && i < j < |history| && IsRotateOf(history[i], id)
    ensures !IsRotateOf(history[j], id)
  {
    StepAt(history, i);
    StepAt(history, j);
    var db := StateAfter(history[..i]).value;
    assert id in Apply(db, history[i]) && Apply(db, history[i])[id].rotatedAt.Some?;
    assert history[..j][..i + 1] == history[..i + 1];
    hide Apply, Enabled, StateAfter;
    RotatedStaysRotated(history[..j], i + 1, id);
    StepKeepsRotated(StateAfter(history[..j]).value, history[j], id);
  }

  /** Of all requests that present one token, at most one is its winner. */
  lemma OneWinnerPerToken(history: seq<Step>, i: nat, j: nat, id: Id)
    requires StateAfter(history).Some? && i < |history| && j < |history|
    requires IsRotateOf(history[i], id) && IsRotateOf(history[j], id)
    ensures history[i].req == history[j].req && history[i].newId == history[j].newId
  {
    hide StateAfter;
    OneRotationPerToken(history, i, j, id);
  }

  // ---------- what no step changes ----------

  predicate SameIdentity(a: Session, b: Session) {
    a.user == b.user && a.family == b.family && a.parent == b.parent && a.expiresAt == b.expiresAt
  }

  lemma StepKeepsIdentity(db: Db, step: Step, id: Id)
    requires Enabled(db, step) && id in db
    ensures id in Apply(db, step) && SameIdentity(db[id], Apply(db, step)[id])
  {
  }

  lemma {:induction false} IdentityStays(history: seq<Step>, n: nat, id: Id)
    requires n <= |history| && StateAfter(history).Some? && StateAfter(history[..n]).Some?
    requires id in StateAfter(history[..n]).value
    ensures id in StateAfter(history).value
    ensures SameIdentity(StateAfter(history[..n]).value[id], StateAfter(history).value[id])
  {
    if n == |history| {
      assert history[..n] == history;
    } else {
      var m := |history| - 1;
      PrefixIsPossible(history, m);
      assert history[..m][..n] == history[..n];
      IdentityStays(history[..m], n, id);
      hide Apply, Enabled;
      StepKeepsIdentity(StateAfter(history[..m]).value, history[m], id);
    }
  }
}
