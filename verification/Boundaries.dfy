/** Where the guarantees stop: exactly what a request leaves behind when it is stopped. */
module Boundaries {
  import opened Types
  import opened Tokens
  import opened Store
  import opened Protocol
  import opened Invariants
  import opened Commits
  import opened Requests
  import opened Runs
  import opened Transactions
  import opened Gatekeeping

  // ---- Requests that commit before they purge ----------------------------------------------

  /**
   * A logout stopped after its commit leaves the cache free of stale sessions
   * exactly when every session it revoked is out of the cache by then, or had
   * expired anyway.
   */
  lemma CommitFirstStale(w: World, revoke: map<SessionId, Time>, keys: seq<Key>, k: nat, before: Time, now: Time)
    requires Inv(w, before) && before < now && RevokesLive(w.tables, Delta(NoChange, revoke, map[]), now)
    requires k <= |keys|
    ensures
      var left := Play(w, ([Commit(Delta(NoChange, revoke, map[]))] + DelAll(keys))[..k + 1]);
      NoStaleActive(left, now) <==>
      forall s | s in revoke && SessionKey(s) in w.cache :: SessionKey(s) in keys[..k] || w.tables.sessions[s].expiresAt <= now
  {
    var d := Delta(NoChange, revoke, map[]);
    var es := [Commit(d)] + DelAll(keys);
    assert es[..k + 1] == [Commit(d)] + DelAll(keys[..k]);
    PlayConcat(w, [Commit(d)], DelAll(keys[..k]));
    PlaySnoc(w, [], Commit(d));
    assert [] + [Commit(d)] == [Commit(d)];
    PlayDels(Apply(w, Commit(d)), keys[..k]);
    StaleAfter(w, Play(w, es[..k + 1]), revoke, keys[..k], before, now);
  }

  lemma StaleAfter(w: World, left: World, revoke: map<SessionId, Time>, gone: seq<Key>, before: Time, now: Time)
    requires Inv(w, before) && before < now && RevokesLive(w.tables, Delta(NoChange, revoke, map[]), now)
    requires left.tables == ApplyDelta(w.tables, Delta(NoChange, revoke, map[]))
    requires left.cache == w.cache - (set k | k in gone)
    ensures NoStaleActive(left, now) <==>
      forall s | s in revoke && SessionKey(s) in w.cache :: SessionKey(s) in gone || w.tables.sessions[s].expiresAt <= now
  {
    hide TablesOk, TokensOwned, GraceExact;
    if forall s | s in revoke && SessionKey(s) in w.cache :: SessionKey(s) in gone || w.tables.sessions[s].expiresAt <= now {
      StaleFree(w, left, Delta(NoChange, revoke, map[]), now);
    } else {
      var s :| s in revoke && SessionKey(s) in w.cache && SessionKey(s) !in gone && w.tables.sessions[s].expiresAt > now;
      assert SameSession(w.cache[SessionKey(s)].value.validation, s, w.tables);
      assert SessionKey(s) in left.cache && left.tables.sessions[s].revokedAt.Some?;
    }
  }

  /** A logout stopped between its commit and its purge is harmless exactly when the session was not cached, or had expired. */
  lemma LogoutStopped(w: World, s: SessionId, c: Clock, before: Time)
    requires Inv(w, before) && Ordered(c) && before < c.begin
    requires s in w.tables.sessions && w.tables.sessions[s].revokedAt.None?
    ensures NoStaleActive(Play(w, LogoutPlan(s, w.tables.sessions[s], c)[..1]), c.end) <==>
            SessionKey(s) !in w.cache || w.tables.sessions[s].expiresAt <= c.end
  {
    hide Inv, NoStaleActive, Play, ApplyDelta;
    var keys := [SessionKey(s), GraceKey(s)];
    LogoutFacts(w.tables, s, c);
    LogoutPlanSplit(s, w.tables.sessions[s], c);
    CommitFirstStale(w, LogoutRevoke(s, w.tables.sessions[s], c.revoke), keys, 0, before, c.end);
    assert keys[..0] == [];
  }

  /**
   * A status change, deletion or profile update stopped anywhere leaves a stale
   * identity exactly when it stopped between its commit and its last purge, the
   * user was cached, and the write changed what is cached of them.
   */
  lemma UserWriteStopped(w: World, u: UserId, write: UserWrite, revoke: map<SessionId, Time>, active: seq<SessionId>, k: nat)
    requires IdentitiesFresh(w) && Visible(w.tables, u) && !write.Create?
    requires k <= |LockoutPlan(u, write, revoke, active)|
    ensures ProfilePlan(u, write) == LockoutPlan(u, write, map[], [])
    ensures
      !IdentitiesFresh(Play(w, LockoutPlan(u, write, revoke, active)[..k])) <==>
        && k == |PurgeKeys(active)| + 1
        && UserKey(u) in w.cache
        && (write.SetDeleted? || IdentityOf(u, Written(w.tables.users[u], write)) != IdentityOf(u, w.tables.users[u]))
  {
    hide IdentitiesFresh, Play, PurgeKeys, ApplyDelta;
    var es, keys := LockoutPlan(u, write, revoke, active), PurgeKeys(active);
    var commit := Commit(Delta(Change(u, write), revoke, map[]));
    EmptyPurge(u, write);
    PurgedFresh(w, active, keys);
    if k <= |keys| {
      assert es[..k] == DelAll(keys[..k]);
      PlayDels(w, keys[..k]);
      FewerIdentities(w, keys[..k]);
    } else {
      PlayDels(w, keys);
      var mid := Play(w, DelAll(keys));
      PlaySnoc(w, DelAll(keys), commit);
      WriteFresh(mid, u, write, revoke);
      if k == |keys| + 1 {
        assert es[..k] == DelAll(keys) + [commit];
      } else {
        assert es[..k] == DelAll(keys) + [commit] + [Del(UserKey(u))];
        PlaySnoc(w, DelAll(keys) + [commit], Del(UserKey(u)));
      }
    }
  }

  lemma EmptyPurge(u: UserId, write: UserWrite)
    ensures ProfilePlan(u, write) == LockoutPlan(u, write, map[], [])
  {
  }

  lemma FewerIdentities(w: World, keys: seq<Key>)
    requires IdentitiesFresh(w)
    ensures IdentitiesFresh(w.(cache := w.cache - (set k | k in keys)))
  {
  }

  /** Purging sessions leaves identities alone. */
  lemma PurgedFresh(w: World, active: seq<SessionId>, keys: seq<Key>)
    requires IdentitiesFresh(w) && keys == PurgeKeys(active)
    ensures var mid := w.(cache := w.cache - (set k | k in keys));
            IdentitiesFresh(mid) && forall u :: UserKey(u) in mid.cache <==> UserKey(u) in w.cache
  {
    PurgeKeysMembers(active);
  }

  /** A write makes a cached identity stale exactly when it changes it; dropping that identity mends it. */
  lemma WriteFresh(w: World, u: UserId, write: UserWrite, revoke: map<SessionId, Time>)
    requires IdentitiesFresh(w) && Visible(w.tables, u) && !write.Create?
    ensures
      var after := Apply(w, Commit(Delta(Change(u, write), revoke, map[])));
      && IdentitiesFresh(Apply(after, Del(UserKey(u))))
      && (!IdentitiesFresh(after) <==>
            && UserKey(u) in w.cache
            && (write.SetDeleted? || IdentityOf(u, Written(w.tables.users[u], write)) != IdentityOf(u, w.tables.users[u])))
  {
    var after := Apply(w, Commit(Delta(Change(u, write), revoke, map[])));
    assert after.tables.users == w.tables.users[u := Written(w.tables.users[u], write)];
    if UserKey(u) in w.cache {
      assert after.cache[UserKey(u)].value == UserValue(IdentityOf(u, w.tables.users[u]));
    }
    assert forall v | UserKey(v) in after.cache && v != u :: after.tables.users[v] == w.tables.users[v];
  }
}
