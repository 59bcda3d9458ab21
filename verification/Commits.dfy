/** What every transaction of the program satisfies, and why the tables stay in order across it. */
module Commits {
  import opened Types
  import opened Tokens
  import opened Store
  import opened Protocol
  import opened Invariants

  /** A revocation hits an unrevoked row, and is dated no later than `now`. */
  ghost predicate RevokesLive(t: Tables, d: Delta, now: Time) {
    forall s | s in d.revoke :: s in t.sessions && t.sessions[s].revokedAt.None? && d.revoke[s] <= now
  }

  /** A new session is younger than every other and belongs to a user in good standing. */
  ghost predicate InsertsFresh(t: Tables, d: Delta, before: Time, now: Time) {
    && (forall n | n in d.insert ::
          && n !in t.sessions
          && d.insert[n].revokedAt.None?
          && before < d.insert[n].createdAt <= now
          && d.insert[n].userId in ChangedUsers(t.users, d.change)
          && MayHold(ChangedUsers(t.users, d.change)[d.insert[n].userId]))
    && (forall n, m | n in d.insert && m in d.insert :: n == m)
  }

  /** A successor is inserted in the transaction that revokes its predecessor, and inherits user and expiry. */
  ghost predicate SuccessionOk(t: Tables, d: Delta) {
    forall n | n in d.insert && d.insert[n].previous.Some? ::
      var p := d.insert[n].previous.value;
      && p in d.revoke && p in t.sessions
      && t.sessions[p].userId == d.insert[n].userId
      && t.sessions[p].expiresAt == d.insert[n].expiresAt
  }

  /** Room is made for a new session. */
  ghost predicate MakesRoom(t: Tables, d: Delta, now: Time) {
    forall n | n in d.insert ::
      d.insert[n].previous.None? ==> |ActiveSet(t, d.insert[n].userId, now) - d.revoke.Keys| < DEVICE_LIMIT
  }

  /** A user write that bars a user from holding sessions revokes all of theirs. */
  ghost predicate UsersOk(t: Tables, d: Delta) {
    var t' := ApplyDelta(t, d);
    && UniqueNames(t')
    && UsersStep(t, t')
    && (forall s | s in t.sessions && t.sessions[s].revokedAt.None? && s !in d.revoke && t.sessions[s].userId in t'.users ::
          MayHold(t'.users[t.sessions[s].userId]))
  }

  ghost predicate GoodDelta(t: Tables, d: Delta, before: Time, now: Time) {
    && before < now
    && RevokesLive(t, d, now)
    && InsertsFresh(t, d, before, now)
    && SuccessionOk(t, d)
    && MakesRoom(t, d, now)
    && UsersOk(t, d)
  }

  /** The sessions table after a transaction, row by row. */
  ghost predicate SessionsAfter(t: Tables, d: Delta, t': Tables) {
    && (forall s :: s in t'.sessions <==> s in t.sessions || s in d.insert)
    && (forall s | s in d.insert :: t'.sessions[s] == d.insert[s])
    && (forall s | s in t.sessions && s !in d.insert :: t'.sessions[s] == RevokedRow(t.sessions[s], s, d.revoke))
  }

  lemma CommitEvolves(t: Tables, d: Delta, before: Time, now: Time)
    requires GoodDelta(t, d, before, now)
    ensures SessionsEvolve(t, ApplyDelta(t, d)) && UsersStep(t, ApplyDelta(t, d))
  {
  }

  lemma KeepsLockout(t: Tables, d: Delta, t': Tables, before: Time, now: Time)
    requires Lockout(t) && SessionsAfter(t, d, t') && InsertsFresh(t, d, before, now)
    requires t'.users == ChangedUsers(t.users, d.change) && forall u | u in t.users :: u in t'.users
    requires forall s | s in t.sessions && t.sessions[s].revokedAt.None? && s !in d.revoke && t.sessions[s].userId in t'.users ::
               MayHold(t'.users[t.sessions[s].userId])
    ensures Lockout(t')
  {
  }

  lemma KeepsDated(t: Tables, d: Delta, t': Tables, before: Time, now: Time)
    requires Dated(t, before) && before < now
    requires SessionsAfter(t, d, t') && RevokesLive(t, d, now) && InsertsFresh(t, d, before, now)
    ensures Dated(t', now)
  {
    forall s | s in t'.sessions
      ensures t'.sessions[s].createdAt <= now
      ensures t'.sessions[s].revokedAt.Some? ==> t'.sessions[s].revokedAt.value <= now
    {
    }
    forall s, r | s in t'.sessions && r in t'.sessions && t'.sessions[s].createdAt == t'.sessions[r].createdAt
      ensures s == r
    {
      if s in d.insert || r in d.insert {
        assert s in d.insert && r in d.insert;
      }
    }
  }

  lemma KeepsLinks(t: Tables, d: Delta, t': Tables, before: Time, now: Time)
    requires Linked(t) && Dated(t, before)
    requires SessionsAfter(t, d, t') && InsertsFresh(t, d, before, now) && SuccessionOk(t, d)
    ensures forall s | s in t'.sessions && t'.sessions[s].previous.Some? :: LinkOk(t', s, t'.sessions[s].previous.value)
  {
    forall s | s in t'.sessions && t'.sessions[s].previous.Some?
      ensures LinkOk(t', s, t'.sessions[s].previous.value)
    {
      var p := t'.sessions[s].previous.value;
      if s in d.insert {
        assert p in d.revoke && p in t.sessions && p !in d.insert;
      } else {
        assert LinkOk(t, s, p);
      }
    }
  }

  /** A predecessor with a successor was revoked already, so it is not the one revoked now. */
  lemma KeepsSuccessorsUnique(t: Tables, d: Delta, t': Tables, before: Time, now: Time)
    requires Linked(t) && SessionsAfter(t, d, t')
    requires RevokesLive(t, d, now) && InsertsFresh(t, d, before, now) && SuccessionOk(t, d)
    ensures forall s, r | s in t'.sessions && r in t'.sessions && t'.sessions[s].previous.Some?
                          && t'.sessions[s].previous == t'.sessions[r].previous :: s == r
  {
    forall s, r | s in t'.sessions && r in t'.sessions && t'.sessions[s].previous.Some?
                  && t'.sessions[s].previous == t'.sessions[r].previous
      ensures s == r
    {
      var p := t'.sessions[s].previous.value;
      if s in d.insert && r !in d.insert {
        assert false;
      } else if r in d.insert && s !in d.insert {
        assert false;
      } else if s !in d.insert {
        assert t.sessions[s].previous == t.sessions[r].previous;
      }
    }
  }

  lemma ActiveAfter(t: Tables, d: Delta, t': Tables, u: UserId, now: Time)
    requires SessionsAfter(t, d, t')
    ensures forall s | s in ActiveSet(t', u, now) ::
              (s in d.insert && IsActiveFor(d.insert[s], u, now)) || s in ActiveSet(t, u, now) - d.revoke.Keys
  {
  }

  /** A rotation puts its successor in the place of a session no less active; a login finds room. */
  lemma InsertFits(t: Tables, d: Delta, u: UserId, n: SessionId, before: Time, now: Time)
    requires |ActiveSet(t, u, now)| <= DEVICE_LIMIT
    requires n in d.insert && IsActiveFor(d.insert[n], u, now)
    requires RevokesLive(t, d, now) && SuccessionOk(t, d) && MakesRoom(t, d, now)
    ensures |ActiveSet(t, u, now) - d.revoke.Keys| < DEVICE_LIMIT
  {
    if d.insert[n].previous.Some? {
      var p := d.insert[n].previous.value;
      assert p in ActiveSet(t, u, now);
      SubsetSize(ActiveSet(t, u, now) - d.revoke.Keys, ActiveSet(t, u, now) - {p});
    }
  }

  lemma KeepsLimitFor(t: Tables, d: Delta, t': Tables, u: UserId, before: Time, now: Time)
    requires |ActiveSet(t, u, before)| <= DEVICE_LIMIT && before < now
    requires SessionsAfter(t, d, t') && RevokesLive(t, d, now) && InsertsFresh(t, d, before, now)
    requires SuccessionOk(t, d) && MakesRoom(t, d, now)
    ensures |ActiveSet(t', u, now)| <= DEVICE_LIMIT
  {
    var was, then_ := ActiveSet(t, u, now), ActiveSet(t', u, now);
    var kept := was - d.revoke.Keys;
    assert was <= ActiveSet(t, u, before);
    SubsetSize(was, ActiveSet(t, u, before));
    SubsetSize(kept, was);
    ActiveAfter(t, d, t', u, now);
    if n :| n in d.insert && IsActiveFor(d.insert[n], u, now) {
      InsertFits(t, d, u, n, before, now);
      assert then_ <= kept + {n};
      SubsetSize(then_, kept + {n});
    } else {
      assert then_ <= kept;
      SubsetSize(then_, kept);
    }
  }

  lemma CommitKeepsTables(t: Tables, d: Delta, before: Time, now: Time)
    requires TablesOk(t, before) && GoodDelta(t, d, before, now)
    ensures TablesOk(ApplyDelta(t, d), now)
  {
    var t' := ApplyDelta(t, d);
    assert SessionsAfter(t, d, t');
    assert Lockout(t') by { KeepsLockout(t, d, t', before, now); }
    assert Dated(t', now) by { KeepsDated(t, d, t', before, now); }
    assert Linked(t') by {
      KeepsLinks(t, d, t', before, now);
      KeepsSuccessorsUnique(t, d, t', before, now);
    }
    forall u: UserId ensures |ActiveSet(t', u, now)| <= DEVICE_LIMIT {
      KeepsLimitFor(t, d, t', u, before, now);
    }
  }

  /** Rows are never dropped and keep their immutable columns, so what the cache and the tokens say of them stands. */
  lemma EvolutionKeepsReferences(w: World, w': World)
    requires SessionsEvolve(w.tables, w'.tables) && w'.cache == w.cache && w'.issued == w.issued
    requires TokensOwned(w) && SessionsTyped(w) && GraceExact(w)
    ensures TokensOwned(w') && SessionsTyped(w') && GraceExact(w')
  {
    forall s | SessionKey(s) in w'.cache
      ensures w'.cache[SessionKey(s)].value.SessionValue?
      ensures SameSession(w'.cache[SessionKey(s)].value.validation, s, w'.tables)
    {
      assert SameSession(w.cache[SessionKey(s)].value.validation, s, w.tables);
    }
    forall s | GraceKey(s) in w'.cache ensures GraceFor(w', s, w'.cache[GraceKey(s)].value) {
      assert GraceFor(w, s, w.cache[GraceKey(s)].value);
    }
  }

  lemma CommitKeepsLedger(w: World, d: Delta, before: Time, now: Time)
    requires LedgerOk(w, before) && GoodDelta(w.tables, d, before, now)
    ensures LedgerOk(Apply(w, Commit(d)), now)
  {
    var w' := Apply(w, Commit(d));
    assert TablesOk(w'.tables, now) by { CommitKeepsTables(w.tables, d, before, now); }
    assert SessionsEvolve(w.tables, w'.tables) by { CommitEvolves(w.tables, d, before, now); }
    EvolutionKeepsReferences(w, w');
  }

  /**
   * The agreement of cached revocations with the tables, over any stretch that
   * publishes `d` and drops from the cache every session `d` revokes, save
   * those that had expired.
   */
  lemma StaleFree(w: World, w': World, d: Delta, now: Time)
    requires NoStaleActive(w, now) && SessionsTyped(w)
    requires RevokesLive(w.tables, d, now) && forall n | n in d.insert :: n !in w.tables.sessions
    requires w'.tables == ApplyDelta(w.tables, d)
    requires forall s | SessionKey(s) in w'.cache :: SessionKey(s) in w.cache && w'.cache[SessionKey(s)] == w.cache[SessionKey(s)]
    requires forall s | s in d.revoke && SessionKey(s) in w'.cache && s in w.tables.sessions :: w.tables.sessions[s].expiresAt <= now
    ensures NoStaleActive(w', now)
  {
    forall s | SessionKey(s) in w'.cache && s in w'.tables.sessions && w'.tables.sessions[s].revokedAt.Some?
               && w'.cache[SessionKey(s)].value.SessionValue?
               && w'.cache[SessionKey(s)].value.validation.revokedAt.None?
      ensures w'.tables.sessions[s].expiresAt <= now
    {
      assert SessionKey(s) in w.cache;
      assert SameSession(w.cache[SessionKey(s)].value.validation, s, w.tables);
    }
  }

  // ---- The other effects -----------------------------------------------------------

  lemma IssueKeeps(w: World, n: SessionId, pair: TokenPair, now: Time)
    requires Inv(w, now)
    requires n in w.tables.sessions && n !in w.issued && PairFor(pair, w.tables.sessions[n].userId, n)
    ensures Inv(Apply(w, Issue(n, pair)), now)
  {
    var w' := Apply(w, Issue(n, pair));
    forall s | GraceKey(s) in w'.cache ensures GraceFor(w', s, w'.cache[GraceKey(s)].value) {
      assert GraceFor(w, s, w.cache[GraceKey(s)].value);
    }
  }

  lemma CacheSessionKeeps(w: World, s: SessionId, seconds: nat, at: Time, now: Time)
    requires Inv(w, now) && s in w.tables.sessions
    ensures Inv(Apply(w, CacheSession(s, w.tables.sessions[s], seconds, at)), now)
    ensures IdentitiesFresh(w) ==> IdentitiesFresh(Apply(w, CacheSession(s, w.tables.sessions[s], seconds, at)))
  {
    var w' := Apply(w, CacheSession(s, w.tables.sessions[s], seconds, at));
    forall r | GraceKey(r) in w'.cache ensures GraceFor(w', r, w'.cache[GraceKey(r)].value) {
      assert GraceFor(w, r, w.cache[GraceKey(r)].value);
    }
  }

  lemma PutGraceKeeps(w: World, s: SessionId, entry: Entry, now: Time)
    requires Inv(w, now) && GraceFor(w, s, entry.value)
    ensures Inv(Apply(w, Put(GraceKey(s), entry)), now)
    ensures IdentitiesFresh(w) ==> IdentitiesFresh(Apply(w, Put(GraceKey(s), entry)))
  {
    var w' := Apply(w, Put(GraceKey(s), entry));
    forall r | GraceKey(r) in w'.cache ensures GraceFor(w', r, w'.cache[GraceKey(r)].value) {
      assert r != s ==> GraceFor(w, r, w.cache[GraceKey(r)].value);
    }
  }

  lemma WarmIdentityKeeps(w: World, u: UserId, c: Clock, now: Time)
    requires Inv(w, now) && Visible(w.tables, u)
    ensures Inv(Apply(w, WarmIdentity(u, w.tables.users[u], c)), now)
    ensures IdentitiesFresh(w) ==> IdentitiesFresh(Apply(w, WarmIdentity(u, w.tables.users[u], c)))
  {
    var w' := Apply(w, WarmIdentity(u, w.tables.users[u], c));
    forall r | GraceKey(r) in w'.cache ensures GraceFor(w', r, w'.cache[GraceKey(r)].value) {
      assert GraceFor(w, r, w.cache[GraceKey(r)].value);
    }
  }
}
