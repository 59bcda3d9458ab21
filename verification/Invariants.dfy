/** What holds of the two stores between any two atomic requests, and how tables may evolve. */
module Invariants {
  import opened Types
  import opened Tokens
  import opened Store
  import opened Protocol

  // ---- The tables ------------------------------------------------------------

  ghost predicate UniqueNames(t: Tables) {
    && (forall u, v | u in t.users && v in t.users && t.users[u].email == t.users[v].email :: u == v)
    && (forall u, v | u in t.users && v in t.users && t.users[u].username == t.users[v].username :: u == v)
  }

  /** Only a user in good standing owns an unrevoked session. */
  ghost predicate Lockout(t: Tables) {
    forall s | s in t.sessions ::
      && t.sessions[s].userId in t.users
      && (t.sessions[s].revokedAt.None? ==> MayHold(t.users[t.sessions[s].userId]))
  }

  /** Nothing is dated later than the clock, and no two sessions are created at one instant. */
  ghost predicate Dated(t: Tables, now: Time) {
    && (forall s | s in t.sessions ::
          && t.sessions[s].createdAt <= now
          && (t.sessions[s].revokedAt.Some? ==> t.sessions[s].revokedAt.value <= now))
    && (forall s, r | s in t.sessions && r in t.sessions && t.sessions[s].createdAt == t.sessions[r].createdAt :: s == r)
  }

  /** A session's predecessor: older, revoked, of the same user and with the same expiry. */
  ghost predicate LinkOk(t: Tables, s: SessionId, p: SessionId)
    requires s in t.sessions
  {
    && p in t.sessions
    && t.sessions[p].revokedAt.Some?
    && t.sessions[p].createdAt < t.sessions[s].createdAt
    && t.sessions[p].userId == t.sessions[s].userId
    && t.sessions[p].expiresAt == t.sessions[s].expiresAt
  }

  ghost predicate Linked(t: Tables) {
    && (forall s | s in t.sessions && t.sessions[s].previous.Some? :: LinkOk(t, s, t.sessions[s].previous.value))
    && (forall s, r | s in t.sessions && r in t.sessions && t.sessions[s].previous.Some?
                      && t.sessions[s].previous == t.sessions[r].previous :: s == r)
  }

  ghost predicate WithinLimit(t: Tables, now: Time) {
    forall u: UserId :: |ActiveSet(t, u, now)| <= DEVICE_LIMIT
  }

  ghost predicate TablesOk(t: Tables, now: Time) {
    UniqueNames(t) && Lockout(t) && Dated(t, now) && Linked(t) && WithinLimit(t, now)
  }

  // ---- The cache and the tokens ------------------------------------------------

  /** Every token handed out names a committed session of its own subject. */
  ghost predicate TokensOwned(w: World) {
    forall n | n in w.issued :: n in w.tables.sessions && PairFor(w.issued[n], w.tables.sessions[n].userId, n)
  }

  /** A cached projection agrees with its row on everything a row never changes. */
  ghost predicate SameSession(v: SessionValidation, s: SessionId, t: Tables) {
    && s in t.sessions
    && v.id == s
    && v.userId == t.sessions[s].userId
    && v.expiresAt == t.sessions[s].expiresAt
    && (v.revokedAt.Some? ==> t.sessions[s].revokedAt.Some?)
  }

  ghost predicate SessionsTyped(w: World) {
    forall s | SessionKey(s) in w.cache ::
      w.cache[SessionKey(s)].value.SessionValue? && SameSession(w.cache[SessionKey(s)].value.validation, s, w.tables)
  }

  /** No cached projection calls a revoked session active, unless the session had expired by `now`. */
  ghost predicate NoStaleActive(w: World, now: Time) {
    forall s | SessionKey(s) in w.cache && s in w.tables.sessions && w.tables.sessions[s].revokedAt.Some?
               && w.cache[SessionKey(s)].value.SessionValue?
               && w.cache[SessionKey(s)].value.validation.revokedAt.None? ::
      w.tables.sessions[s].expiresAt <= now
  }

  /** A grace entry for `s` holds the pair that was handed out for the successor of `s`. */
  ghost predicate GraceFor(w: World, s: SessionId, value: Value) {
    && value.PairValue?
    && value.pair.refresh.jti.Some?
    && var n := value.pair.refresh.jti.value;
       && n in w.issued && w.issued[n] == value.pair
       && n in w.tables.sessions && w.tables.sessions[n].previous == Some(s)
  }

  ghost predicate GraceExact(w: World) {
    forall s | GraceKey(s) in w.cache :: GraceFor(w, s, w.cache[GraceKey(s)].value)
  }

  /** Every cached identity is that of a visible user, as its row stands. */
  ghost predicate IdentitiesFresh(w: World) {
    forall u | UserKey(u) in w.cache ::
      Visible(w.tables, u) && w.cache[UserKey(u)].value == UserValue(IdentityOf(u, w.tables.users[u]))
  }

  /** All but the agreement of cached revocations with the tables. */
  ghost predicate LedgerOk(w: World, now: Time) {
    TablesOk(w.tables, now) && TokensOwned(w) && SessionsTyped(w) && GraceExact(w)
  }

  ghost predicate Inv(w: World, now: Time) {
    LedgerOk(w, now) && NoStaleActive(w, now)
  }

  ghost predicate Initial(w: World) {
    w.tables.sessions == map[] && w.cache == map[] && w.issued == map[] && UniqueNames(w.tables)
  }

  // ---- Evolution ---------------------------------------------------------------

  /** A session row keeps every column; `revoked_at` is written once. */
  ghost predicate RowEvolves(a: Session, b: Session) {
    b == a.(revokedAt := b.revokedAt) && (a.revokedAt.Some? ==> b.revokedAt == a.revokedAt)
  }

  ghost predicate SessionsEvolve(t: Tables, t': Tables) {
    forall s | s in t.sessions :: s in t'.sessions && RowEvolves(t.sessions[s], t'.sessions[s])
  }

  /** One commit moves a status along at most one edge of the transition table, and never undeletes. */
  ghost predicate UsersStep(t: Tables, t': Tables) {
    forall u | u in t.users ::
      && u in t'.users
      && MayTransition(t.users[u].status, t'.users[u].status)
      && (t.users[u].deletedAt.Some? ==>
            t'.users[u].deletedAt == t.users[u].deletedAt && t'.users[u].status == t.users[u].status)
      && t'.users[u].role == t.users[u].role
  }

  // ---- Small facts ---------------------------------------------------------------

  lemma SubsetSize<T>(a: set<T>, b: set<T>)
    requires a <= b
    ensures |a| <= |b|
  {
    assert b == a + (b - a);
  }

  lemma InitialOk(w: World)
    requires Initial(w)
    ensures Inv(w, 0) && IdentitiesFresh(w)
  {
    forall u: UserId ensures |ActiveSet(w.tables, u, 0)| <= DEVICE_LIMIT {
      assert ActiveSet(w.tables, u, 0) == {};
    }
  }

  lemma LedgerLater(w: World, now: Time, later: Time)
    requires LedgerOk(w, now) && now <= later
    ensures LedgerOk(w, later)
  {
    forall u: UserId ensures |ActiveSet(w.tables, u, later)| <= DEVICE_LIMIT {
      SubsetSize(ActiveSet(w.tables, u, later), ActiveSet(w.tables, u, now));
    }
  }

  lemma InvLater(w: World, now: Time, later: Time)
    requires Inv(w, now) && now <= later
    ensures Inv(w, later)
  {
    LedgerLater(w, now, later);
  }

  /** Losing cache entries breaks nothing. */
  lemma InvBelow(a: World, b: World, now: Time)
    requires Below(a, b)
    ensures LedgerOk(b, now) ==> LedgerOk(a, now)
    ensures Inv(b, now) ==> Inv(a, now)
    ensures IdentitiesFresh(b) ==> IdentitiesFresh(a)
  {
    assert forall k | k in a.cache :: k in b.cache && a.cache[k] == b.cache[k];
  }
}
