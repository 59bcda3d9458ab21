/** Each request, stopped after any of its effects, keeps the invariant. */
module Requests {
  import opened Types
  import opened Tokens
  import opened Store
  import opened Protocol
  import opened Invariants
  import opened Commits

  /** Every intermediate world satisfies the invariant. */
  ghost predicate Safe(w: World, es: seq<Effect>, now: Time) {
    forall k | 0 <= k <= |es| :: Inv(Play(w, es[..k]), now)
  }

  lemma SafeSnoc(w: World, es: seq<Effect>, e: Effect, now: Time)
    requires Safe(w, es, now) && Inv(Apply(Play(w, es), e), now)
    ensures Safe(w, es + [e], now)
  {
    forall k | 0 <= k <= |es + [e]| ensures Inv(Play(w, (es + [e])[..k]), now) {
      if k <= |es| {
        assert (es + [e])[..k] == es[..k];
      } else {
        assert (es + [e])[..k] == es + [e];
        PlaySnoc(w, es, e);
      }
    }
  }

  lemma SafeDels(w: World, keys: seq<Key>, now: Time)
    requires Inv(w, now)
    ensures Safe(w, DelAll(keys), now)
  {
    forall k | 0 <= k <= |keys| ensures Inv(Play(w, DelAll(keys)[..k]), now) {
      assert DelAll(keys)[..k] == DelAll(keys[..k]);
      PlayDels(w, keys[..k]);
      InvBelow(Play(w, DelAll(keys[..k])), w, now);
    }
  }

  lemma PurgedCommitOk(w: World, mid: World, keys: seq<Key>, d: Delta, before: Time, now: Time)
    requires Inv(w, before) && GoodDelta(w.tables, d, before, now)
    requires forall s | s in d.revoke :: SessionKey(s) in keys || w.tables.sessions[s].expiresAt <= now
    requires mid == w.(cache := w.cache - (set k | k in keys))
    ensures Inv(Apply(mid, Commit(d)), now)
  {
    assert RevokesLive(w.tables, d, now) && forall n | n in d.insert :: n !in w.tables.sessions;
    assert NoStaleActive(w, now) && SessionsTyped(w);
    hide LedgerOk, GoodDelta, SessionsTyped, NoStaleActive, RevokesLive;
    InvBelow(mid, w, before);
    CommitKeepsLedger(mid, d, before, now);
    StaleFree(w, Apply(mid, Commit(d)), d, now);
  }

  /** Purging first: by the time the revocations are published the cache holds none of them. */
  lemma SafePurgeCommit(w: World, keys: seq<Key>, d: Delta, before: Time, now: Time)
    requires Inv(w, before) && before < now && GoodDelta(w.tables, d, before, now)
    requires forall s | s in d.revoke :: SessionKey(s) in keys || w.tables.sessions[s].expiresAt <= now
    ensures Safe(w, DelAll(keys) + [Commit(d)], now)
    ensures Play(w, DelAll(keys) + [Commit(d)]).tables == ApplyDelta(w.tables, d)
    ensures Play(w, DelAll(keys) + [Commit(d)]).issued == w.issued
  {
    var mid := Play(w, DelAll(keys));
    PlayDels(w, keys);
    PlaySnoc(w, DelAll(keys), Commit(d));
    PurgedCommitOk(w, mid, keys, d, before, now);
    hide Inv, GoodDelta;
    InvLater(w, before, now);
    SafeDels(w, keys, now);
    SafeSnoc(w, DelAll(keys), Commit(d), now);
  }

  lemma ClockSpan(c: Clock)
    requires Ordered(c)
    ensures c.begin <= c.query <= c.revoke <= c.end && c.begin <= c.check <= c.end
  {
  }

  // ---- Login -----------------------------------------------------------------------

  lemma {:induction false} EvictMapKeys(drop: seq<SessionId>, c: Clock)
    ensures forall s :: s in EvictMap(drop, c) <==> s in drop
  {
    if drop != [] {
      EvictMapKeys(drop[..|drop| - 1], c);
      assert drop == drop[..|drop| - 1] + [drop[|drop| - 1]];
    }
  }

  lemma {:induction false} EvictMapFacts(drop: seq<SessionId>, c: Clock)
    requires Ordered(c)
    ensures forall s :: s in EvictMap(drop, c) <==> s in drop
    ensures forall s | s in drop :: c.query <= EvictMap(drop, c)[s] <= c.end
  {
    if drop != [] {
      EvictMapFacts(drop[..|drop| - 1], c);
      assert drop == drop[..|drop| - 1] + [drop[|drop| - 1]];
    }
  }

  lemma {:induction false} SeqSetSize<T>(l: seq<T>)
    ensures |set x | x in l| <= |l|
    ensures NoDup(l) ==> |set x | x in l| == |l|
  {
    if l != [] {
      var front, last := l[..|l| - 1], l[|l| - 1];
      SeqSetSize(front);
      assert l == front + [last];
      assert (set x | x in l) == (set x | x in front) + {last};
      if NoDup(l) {
        assert last !in front;
      }
    }
  }

  /** The sessions a login keeps are the newest four. */
  lemma EvictionKeepsFour(active: seq<SessionId>)
    ensures |Evicted(active)| <= |active|
    ensures Evicted(active) + active[|Evicted(active)|..] == active
    ensures |active[|Evicted(active)|..]| == if |active| < DEVICE_LIMIT then |active| else DEVICE_LIMIT - 1
  {
  }

  lemma LoginMakesRoom(t: Tables, u: UserId, active: seq<SessionId>, c: Clock)
    requires Ordered(c) && IsActiveList(active, t, u, c.query)
    ensures |ActiveSet(t, u, c.end) - EvictMap(Evicted(active), c).Keys| < DEVICE_LIMIT
  {
    EvictionKeepsFour(active);
    EvictMapFacts(Evicted(active), c);
    var kept := active[|Evicted(active)|..];
    var left := ActiveSet(t, u, c.end) - EvictMap(Evicted(active), c).Keys;
    forall s | s in left ensures s in kept {
      assert s in ActiveSet(t, u, c.query);
      assert s in Evicted(active) + kept;
    }
    SeqSetSize(kept);
    SubsetSize(left, set s | s in kept);
  }

  lemma UsersUntouched(t: Tables, d: Delta, before: Time)
    requires TablesOk(t, before) && d.change == NoChange
    ensures UsersOk(t, d)
  {
  }

  lemma LoginDeltaGood(t: Tables, u: UserId, active: seq<SessionId>, device: Option<string>, ip: Option<string>,
                       newId: SessionId, c: Clock, before: Time)
    requires TablesOk(t, before) && Ordered(c) && before < c.begin
    requires u in t.users && MayHold(t.users[u]) && newId !in t.sessions
    requires IsActiveList(active, t, u, c.query)
    ensures GoodDelta(t, LoginDelta(u, active, device, ip, newId, c), before, c.end)
  {
    hide *;
    var d := LoginDelta(u, active, device, ip, newId, c);
    ClockSpan(c);
    LoginDeltaParts(u, active, device, ip, newId, c);
    UsersUntouched(t, d, before);
    LoginMakesRoom(t, u, active, c);
    EvictedLive(t, d, u, active, c);
    RowFresh(t, d, u, newId, device, ip, c, before);
    RowHasRoom(t, d, u, newId, device, ip, c);
    GoodFrom(t, d, before, c.end);
  }

  lemma LoginDeltaParts(u: UserId, active: seq<SessionId>, device: Option<string>, ip: Option<string>, newId: SessionId, c: Clock)
    ensures LoginDelta(u, active, device, ip, newId, c)
         == Delta(NoChange, EvictMap(Evicted(active), c), map[newId := LoginRow(u, device, ip, c)])
  {
    hide EvictMap, Evicted, LoginRow;
  }

  /** The one new row is fresh, and its owner in good standing. */
  lemma RowFresh(t: Tables, d: Delta, u: UserId, newId: SessionId, device: Option<string>, ip: Option<string>, c: Clock, before: Time)
    requires d == Delta(NoChange, d.revoke, map[newId := LoginRow(u, device, ip, c)])
    requires Ordered(c) && before < c.begin && u in t.users && MayHold(t.users[u]) && newId !in t.sessions
    ensures InsertsFresh(t, d, before, c.end)
  {
    hide MayHold;
  }

  /** The one new row starts a chain, and has room. */
  lemma RowHasRoom(t: Tables, d: Delta, u: UserId, newId: SessionId, device: Option<string>, ip: Option<string>, c: Clock)
    requires d == Delta(NoChange, d.revoke, map[newId := LoginRow(u, device, ip, c)])
    requires |ActiveSet(t, u, c.end) - d.revoke.Keys| < DEVICE_LIMIT
    ensures MakesRoom(t, d, c.end) && SuccessionOk(t, d)
  {
    hide ActiveSet;
  }

  lemma GoodFrom(t: Tables, d: Delta, before: Time, now: Time)
    requires before < now && RevokesLive(t, d, now) && InsertsFresh(t, d, before, now)
    requires SuccessionOk(t, d) && MakesRoom(t, d, now) && UsersOk(t, d)
    ensures GoodDelta(t, d, before, now)
  {
    hide RevokesLive, InsertsFresh, SuccessionOk, MakesRoom, UsersOk;
  }

  lemma EvictedLive(t: Tables, d: Delta, u: UserId, active: seq<SessionId>, c: Clock)
    requires Ordered(c) && IsActiveList(active, t, u, c.query) && d.revoke == EvictMap(Evicted(active), c)
    ensures RevokesLive(t, d, c.end)
  {
    EvictMapFacts(Evicted(active), c);
    EvictionKeepsFour(active);
    forall s | s in d.revoke ensures s in ActiveSet(t, u, c.query) && d.revoke[s] <= c.end {
      assert s in Evicted(active) + active[|Evicted(active)|..];
    }
  }

  lemma Inserted(t: Tables, d: Delta, n: SessionId)
    requires n in d.insert
    ensures n in ApplyDelta(t, d).sessions && ApplyDelta(t, d).sessions[n] == d.insert[n]
  {
  }

  lemma NotIssued(w: World, n: SessionId, now: Time)
    requires Inv(w, now) && n !in w.tables.sessions
    ensures n !in w.issued
  {
  }

  lemma LoginPlanSplit(u: UserId, active: seq<SessionId>, device: Option<string>, ip: Option<string>, newId: SessionId, c: Clock)
    ensures LoginPlan(u, active, device, ip, newId, c)
         == DelAll(SessionKeys(Evicted(active))) + [Commit(LoginDelta(u, active, device, ip, newId, c))]
            + [Issue(newId, LoginPair(u, newId, c))]
            + [CacheSession(newId, LoginRow(u, device, ip, c), REFRESH_SECONDS, c.putSession)]
  {
  }

  lemma LoginFacts(w: World, u: UserId, active: seq<SessionId>, device: Option<string>, ip: Option<string>,
                   newId: SessionId, c: Clock, before: Time)
    requires Inv(w, before) && Ordered(c) && before < c.begin
    requires u in w.tables.users && MayHold(w.tables.users[u]) && newId !in w.tables.sessions
    requires IsActiveList(active, w.tables, u, c.query)
    ensures GoodDelta(w.tables, LoginDelta(u, active, device, ip, newId, c), before, c.end)
    ensures LoginDelta(u, active, device, ip, newId, c).insert == map[newId := LoginRow(u, device, ip, c)]
    ensures forall s | s in LoginDelta(u, active, device, ip, newId, c).revoke :: SessionKey(s) in SessionKeys(Evicted(active))
    ensures newId !in w.issued
    ensures LoginRow(u, device, ip, c).userId == u && PairFor(LoginPair(u, newId, c), u, newId)
  {
    LoginDeltaGood(w.tables, u, active, device, ip, newId, c, before);
    EvictMapFacts(Evicted(active), c);
    SessionKeysMembers(Evicted(active));
    NotIssued(w, newId, before);
  }

  lemma LoginSafe(w: World, u: UserId, active: seq<SessionId>, device: Option<string>, ip: Option<string>,
                  newId: SessionId, c: Clock, before: Time)
    requires Inv(w, before) && Ordered(c) && before < c.begin
    requires u in w.tables.users && MayHold(w.tables.users[u]) && newId !in w.tables.sessions
    requires IsActiveList(active, w.tables, u, c.query)
    ensures Safe(w, LoginPlan(u, active, device, ip, newId, c), c.end)
  {
    hide *;
    var d := LoginDelta(u, active, device, ip, newId, c);
    var keys, row := SessionKeys(Evicted(active)), LoginRow(u, device, ip, c);
    ClockSpan(c);
    LoginFacts(w, u, active, device, ip, newId, c, before);
    SafePurgeCommit(w, keys, d, before, c.end);
    Inserted(w.tables, d, newId);
    IssueAndCacheSafe(w, DelAll(keys) + [Commit(d)], newId, row, LoginPair(u, newId, c), REFRESH_SECONDS, c.putSession, c.end);
    LoginPlanSplit(u, active, device, ip, newId, c);
  }

  /** Handing out the pair of a session just committed, and caching its projection. */
  lemma IssueAndCacheSafe(w: World, es: seq<Effect>, n: SessionId, row: Session, pair: TokenPair,
                          seconds: nat, at: Time, now: Time)
    requires Safe(w, es, now)
    requires n in Play(w, es).tables.sessions && Play(w, es).tables.sessions[n] == row && n !in Play(w, es).issued
    requires PairFor(pair, row.userId, n)
    ensures Safe(w, es + [Issue(n, pair)] + [CacheSession(n, row, seconds, at)], now)
    ensures Play(w, es + [Issue(n, pair)] + [CacheSession(n, row, seconds, at)])
         == Apply(Apply(Play(w, es), Issue(n, pair)), CacheSession(n, row, seconds, at))
  {
    assert es[..|es|] == es;
    IssueKeeps(Play(w, es), n, pair, now);
    SafeSnoc(w, es, Issue(n, pair), now);
    PlaySnoc(w, es, Issue(n, pair));
    var next := es + [Issue(n, pair)];
    CacheSessionKeeps(Play(w, next), n, seconds, at, now);
    SafeSnoc(w, next, CacheSession(n, row, seconds, at), now);
    PlaySnoc(w, next, CacheSession(n, row, seconds, at));
  }

  // ---- Rotation ----------------------------------------------------------------------

  lemma RotationDeltaGood(t: Tables, s: SessionId, ip: Option<string>, newId: SessionId, c: Clock, before: Time)
    requires TablesOk(t, before) && Ordered(c) && before < c.begin
    requires s in t.sessions && t.sessions[s].revokedAt.None? && newId !in t.sessions
    ensures GoodDelta(t, RotationDelta(s, t.sessions[s], t.sessions[s].userId, ip, newId, c), before, c.end)
  {
    var d := RotationDelta(s, t.sessions[s], t.sessions[s].userId, ip, newId, c);
    assert RevokesLive(t, d, c.end);
    assert InsertsFresh(t, d, before, c.end);
    UsersUntouched(t, d, before);
  }

  lemma RotationPlanSplit(s: SessionId, row: Session, sub: UserId, ip: Option<string>, newId: SessionId, c: Clock)
    ensures RotationPlan(s, row, sub, ip, newId, c)
         == DelAll([SessionKey(s)]) + [Commit(RotationDelta(s, row, sub, ip, newId, c))]
            + [Issue(newId, RotatedPair(row, sub, newId, c))]
            + [CacheSession(newId, RotatedRow(s, row, sub, ip, c), RemainingSeconds(row.expiresAt, c.window), c.putSession)]
            + [Put(GraceKey(s), EntryFor(PairValue(RotatedPair(row, sub, newId, c)), Some(GRACE_SECONDS), c.putGrace))]
  {
  }

  lemma GraceRecorded(w: World, s: SessionId, n: SessionId, pair: TokenPair, row: Session, seconds: nat, c: Clock)
    requires n in w.tables.sessions && w.tables.sessions[n].previous == Some(s) && pair.refresh.jti == Some(n)
    ensures GraceFor(Apply(Apply(w, Issue(n, pair)), CacheSession(n, row, seconds, c.putSession)), s,
                     EntryFor(PairValue(pair), Some(GRACE_SECONDS), c.putGrace).value)
  {
  }

  lemma PutGraceSafe(w: World, es: seq<Effect>, s: SessionId, entry: Entry, now: Time)
    requires Safe(w, es, now) && GraceFor(Play(w, es), s, entry.value)
    ensures Safe(w, es + [Put(GraceKey(s), entry)], now)
  {
    assert Inv(Play(w, es), now) by { assert es[..|es|] == es; }
    hide Inv, GraceFor;
    PutGraceKeeps(Play(w, es), s, entry, now);
    SafeSnoc(w, es, Put(GraceKey(s), entry), now);
  }

  lemma RotationFacts(w: World, s: SessionId, ip: Option<string>, newId: SessionId, c: Clock, before: Time)
    requires Inv(w, before) && Ordered(c) && before < c.begin
    requires s in w.tables.sessions && w.tables.sessions[s].revokedAt.None? && newId !in w.tables.sessions
    ensures GoodDelta(w.tables, RotationDelta(s, w.tables.sessions[s], w.tables.sessions[s].userId, ip, newId, c), before, c.end)
    ensures RotationDelta(s, w.tables.sessions[s], w.tables.sessions[s].userId, ip, newId, c)
         == Delta(NoChange, map[s := c.revoke], map[newId := RotatedRow(s, w.tables.sessions[s], w.tables.sessions[s].userId, ip, c)])
    ensures newId !in w.issued
    ensures RotatedRow(s, w.tables.sessions[s], w.tables.sessions[s].userId, ip, c).userId == w.tables.sessions[s].userId
    ensures RotatedRow(s, w.tables.sessions[s], w.tables.sessions[s].userId, ip, c).previous == Some(s)
    ensures PairFor(RotatedPair(w.tables.sessions[s], w.tables.sessions[s].userId, newId, c), w.tables.sessions[s].userId, newId)
    ensures RotatedPair(w.tables.sessions[s], w.tables.sessions[s].userId, newId, c).refresh.jti == Some(newId)
  {
    RotationDeltaGood(w.tables, s, ip, newId, c, before);
  }

  lemma RotationSafe(w: World, s: SessionId, ip: Option<string>, newId: SessionId, c: Clock, before: Time)
    requires Inv(w, before) && Ordered(c) && before < c.begin
    requires s in w.tables.sessions && w.tables.sessions[s].revokedAt.None? && newId !in w.tables.sessions
    ensures Safe(w, RotationPlan(s, w.tables.sessions[s], w.tables.sessions[s].userId, ip, newId, c), c.end)
  {
    hide *;
    var row := w.tables.sessions[s];
    var d := RotationDelta(s, row, row.userId, ip, newId, c);
    var successor, pair := RotatedRow(s, row, row.userId, ip, c), RotatedPair(row, row.userId, newId, c);
    var seconds := RemainingSeconds(row.expiresAt, c.window);
    ClockSpan(c);
    RotationFacts(w, s, ip, newId, c, before);
    var es := DelAll([SessionKey(s)]) + [Commit(d)];
    SafePurgeCommit(w, [SessionKey(s)], d, before, c.end);
    Inserted(w.tables, d, newId);
    IssueAndCacheSafe(w, es, newId, successor, pair, seconds, c.putSession, c.end);
    GraceRecorded(Play(w, es), s, newId, pair, successor, seconds, c);
    PutGraceSafe(w, es + [Issue(newId, pair)] + [CacheSession(newId, successor, seconds, c.putSession)], s,
                 EntryFor(PairValue(pair), Some(GRACE_SECONDS), c.putGrace), c.end);
    RotationPlanSplit(s, row, row.userId, ip, newId, c);
  }

  // ---- Revocations that commit first ----------------------------------------------------

  lemma RevocationGood(t: Tables, revoke: map<SessionId, Time>, before: Time, now: Time)
    requires TablesOk(t, before) && before < now && RevokesLive(t, Delta(NoChange, revoke, map[]), now)
    ensures GoodDelta(t, Delta(NoChange, revoke, map[]), before, now)
  {
    UsersUntouched(t, Delta(NoChange, revoke, map[]), before);
  }

  /** Committing first is only safe once the purge is complete. */
  lemma CommitThenPurge(w: World, revoke: map<SessionId, Time>, keys: seq<Key>, before: Time, now: Time)
    requires Inv(w, before) && before < now && RevokesLive(w.tables, Delta(NoChange, revoke, map[]), now)
    requires forall s | s in revoke :: SessionKey(s) in keys || w.tables.sessions[s].expiresAt <= now
    ensures Inv(Play(w, [Commit(Delta(NoChange, revoke, map[]))] + DelAll(keys)), now)
    ensures IdentitiesFresh(w) ==> IdentitiesFresh(Play(w, [Commit(Delta(NoChange, revoke, map[]))] + DelAll(keys)))
    ensures Play(w, [Commit(Delta(NoChange, revoke, map[]))] + DelAll(keys)).tables == ApplyDelta(w.tables, Delta(NoChange, revoke, map[]))
    ensures Play(w, [Commit(Delta(NoChange, revoke, map[]))] + DelAll(keys)).issued == w.issued
  {
    hide Inv, Play, ApplyDelta;
    PurgedWorld(w, Delta(NoChange, revoke, map[]), keys);
    PurgedInv(w, Delta(NoChange, revoke, map[]), keys, Play(w, [Commit(Delta(NoChange, revoke, map[]))] + DelAll(keys)), before, now);
  }

  lemma PurgedInv(w: World, d: Delta, keys: seq<Key>, last: World, before: Time, now: Time)
    requires Inv(w, before) && before < now && RevokesLive(w.tables, d, now) && d == Delta(NoChange, d.revoke, map[])
    requires forall s | s in d.revoke :: SessionKey(s) in keys || w.tables.sessions[s].expiresAt <= now
    requires last == World(ApplyDelta(w.tables, d), w.cache - (set k | k in keys), w.issued)
    ensures Inv(last, now) && (IdentitiesFresh(w) ==> IdentitiesFresh(last))
  {
    hide GoodDelta, TablesOk, TokensOwned, GraceExact, NoStaleActive;
    RevocationGood(w.tables, d.revoke, before, now);
    CommitKeepsLedger(w, d, before, now);
    InvBelow(last, Apply(w, Commit(d)), now);
    InvLater(w, before, now);
    StaleFree(w, last, d, now);
  }

  lemma PurgedWorld(w: World, d: Delta, keys: seq<Key>)
    ensures Play(w, [Commit(d)] + DelAll(keys)) == World(ApplyDelta(w.tables, d), w.cache - (set k | k in keys), w.issued)
    ensures Apply(w, Commit(d)) == World(ApplyDelta(w.tables, d), w.cache, w.issued)
    ensures Below(Play(w, [Commit(d)] + DelAll(keys)), Apply(w, Commit(d)))
  {
    hide ApplyDelta, DelAll;
    PlayConcat(w, [Commit(d)], DelAll(keys));
    PlaySnoc(w, [], Commit(d));
    assert [] + [Commit(d)] == [Commit(d)];
    PlayDels(Apply(w, Commit(d)), keys);
  }

  lemma LogoutAllOk(w: World, u: UserId, active: seq<SessionId>, c: Clock, before: Time)
    requires Inv(w, before) && Ordered(c) && before < c.begin
    requires IsActiveList(active, w.tables, u, c.query)
    ensures Inv(Play(w, LogoutAllPlan(RevokeAll(w.tables, u, c.revoke), active)), c.end)
    ensures IdentitiesFresh(w) ==> IdentitiesFresh(Play(w, LogoutAllPlan(RevokeAll(w.tables, u, c.revoke), active)))
    ensures Play(w, LogoutAllPlan(RevokeAll(w.tables, u, c.revoke), active)).tables
         == ApplyDelta(w.tables, Delta(NoChange, RevokeAll(w.tables, u, c.revoke), map[]))
    ensures Play(w, LogoutAllPlan(RevokeAll(w.tables, u, c.revoke), active)).issued == w.issued
  {
    var revoke := RevokeAll(w.tables, u, c.revoke);
    RevokedAllPurged(w.tables, u, active, c);
    CommitThenPurge(w, revoke, PurgeKeys(active), before, c.end);
  }

  /** What a purge misses had expired by the time of the query. */
  lemma RevokedAllPurged(t: Tables, u: UserId, active: seq<SessionId>, c: Clock)
    requires Ordered(c) && IsActiveList(active, t, u, c.query)
    ensures forall s | s in RevokeAll(t, u, c.revoke) :: SessionKey(s) in PurgeKeys(active) || t.sessions[s].expiresAt <= c.end
  {
    PurgeKeysMembers(active);
    forall s | s in RevokeAll(t, u, c.revoke)
      ensures SessionKey(s) in PurgeKeys(active) || t.sessions[s].expiresAt <= c.end
    {
      if t.sessions[s].expiresAt > c.query {
        assert s in ActiveSet(t, u, c.query);
      }
    }
  }

  lemma LogoutFacts(t: Tables, s: SessionId, c: Clock)
    requires Ordered(c) && s in t.sessions
    ensures RevokesLive(t, Delta(NoChange, LogoutRevoke(s, t.sessions[s], c.revoke), map[]), c.end)
    ensures forall r | r in LogoutRevoke(s, t.sessions[s], c.revoke) :: SessionKey(r) in [SessionKey(s), GraceKey(s)]
  {
  }

  lemma LogoutPlanSplit(s: SessionId, row: Session, c: Clock)
    ensures LogoutPlan(s, row, c)
         == [Commit(Delta(NoChange, LogoutRevoke(s, row, c.revoke), map[]))] + DelAll([SessionKey(s), GraceKey(s)])
  {
  }

  lemma LogoutOk(w: World, s: SessionId, c: Clock, before: Time)
    requires Inv(w, before) && Ordered(c) && before < c.begin && s in w.tables.sessions
    ensures Inv(Play(w, LogoutPlan(s, w.tables.sessions[s], c)), c.end)
    ensures IdentitiesFresh(w) ==> IdentitiesFresh(Play(w, LogoutPlan(s, w.tables.sessions[s], c)))
    ensures Play(w, LogoutPlan(s, w.tables.sessions[s], c)).tables
         == ApplyDelta(w.tables, Delta(NoChange, LogoutRevoke(s, w.tables.sessions[s], c.revoke), map[]))
    ensures Play(w, LogoutPlan(s, w.tables.sessions[s], c)).issued == w.issued
  {
    hide *;
    ClockSpan(c);
    LogoutFacts(w.tables, s, c);
    CommitThenPurge(w, LogoutRevoke(s, w.tables.sessions[s], c.revoke), [SessionKey(s), GraceKey(s)], before, c.end);
    LogoutPlanSplit(s, w.tables.sessions[s], c);
  }

  // ---- User commands ----------------------------------------------------------------------

  /** A write to one user that keeps the unique indexes and the status machine. */
  ghost predicate GoodWrite(t: Tables, u: UserId, write: UserWrite) {
    match write
    case Create(user) => u !in t.users && NamesFree(t, user.email, user.username, u)
    case SetProfile(email, username) =>
      Visible(t, u) && NamesFree(t, email.GetOr(t.users[u].email), username.GetOr(t.users[u].username), u)
    case SetPassword(_) => Visible(t, u)
    case SetStatus(status) => Visible(t, u) && MayTransition(t.users[u].status, status)
    case SetDeleted(_) => Visible(t, u)
  }

  predicate Bars(write: UserWrite) {
    write.SetDeleted? || (write.SetStatus? && IsLockout(write.status))
  }

  lemma WriteKeepsNames(t: Tables, u: UserId, write: UserWrite)
    requires UniqueNames(t) && GoodWrite(t, u, write)
    ensures UniqueNames(Tables(ChangedUsers(t.users, Change(u, write)), t.sessions))
  {
  }

  lemma WriteSteps(t: Tables, t': Tables, u: UserId, write: UserWrite)
    requires GoodWrite(t, u, write) && t'.users == ChangedUsers(t.users, Change(u, write))
    ensures UsersStep(t, t')
    ensures !Bars(write) ==> forall v | v in t.users && MayHold(t.users[v]) :: MayHold(t'.users[v])
    ensures forall v | v in t.users && v != u :: t'.users[v] == t.users[v]
  {
  }

  lemma WriteGood(t: Tables, u: UserId, write: UserWrite, revoke: map<SessionId, Time>, at: Time, before: Time, now: Time)
    requires TablesOk(t, before) && before < now && at <= now && GoodWrite(t, u, write)
    requires revoke == if Bars(write) then RevokeAll(t, u, at) else map[]
    ensures GoodDelta(t, Delta(Change(u, write), revoke, map[]), before, now)
  {
    hide *;
    var d := Delta(Change(u, write), revoke, map[]);
    var t' := ApplyDelta(t, d);
    WrittenUsers(t, u, write, revoke);
    TablesParts(t, before);
    WriteSteps(t, t', u, write);
    WriteKeepsNames(t, u, write);
    LockoutSurvives(t, t', d, u, write, at);
    UsersFrom(t, d);
    WriteRevokes(t, d, u, at, now);
    NoInserts(t, d, before, now);
    GoodFrom(t, d, before, now);
  }

  lemma TablesParts(t: Tables, now: Time)
    requires TablesOk(t, now)
    ensures UniqueNames(t) && Lockout(t)
  {
    hide UniqueNames, Lockout, Dated, Linked, WithinLimit;
  }

  lemma WrittenUsers(t: Tables, u: UserId, write: UserWrite, revoke: map<SessionId, Time>)
    ensures ApplyDelta(t, Delta(Change(u, write), revoke, map[])).users == ChangedUsers(t.users, Change(u, write))
    ensures UniqueNames(Tables(ChangedUsers(t.users, Change(u, write)), t.sessions)) ==>
              UniqueNames(ApplyDelta(t, Delta(Change(u, write), revoke, map[])))
  {
    hide ChangedUsers;
  }

  lemma UsersFrom(t: Tables, d: Delta)
    requires UniqueNames(ApplyDelta(t, d)) && UsersStep(t, ApplyDelta(t, d))
    requires forall s | s in t.sessions && t.sessions[s].revokedAt.None? && s !in d.revoke && t.sessions[s].userId in ApplyDelta(t, d).users ::
               MayHold(ApplyDelta(t, d).users[t.sessions[s].userId])
    ensures UsersOk(t, d)
  {
    hide UniqueNames, UsersStep, ApplyDelta, MayHold;
  }

  lemma WriteRevokes(t: Tables, d: Delta, u: UserId, at: Time, now: Time)
    requires at <= now && (d.revoke == RevokeAll(t, u, at) || d.revoke == map[])
    ensures RevokesLive(t, d, now)
  {
  }

  lemma NoInserts(t: Tables, d: Delta, before: Time, now: Time)
    requires d.insert == map[]
    ensures InsertsFresh(t, d, before, now) && SuccessionOk(t, d) && MakesRoom(t, d, now)
  {
  }

  lemma LockoutSurvives(t: Tables, t': Tables, d: Delta, u: UserId, write: UserWrite, at: Time)
    requires Lockout(t) && GoodWrite(t, u, write) && t'.users == ChangedUsers(t.users, Change(u, write))
    requires d.revoke == if Bars(write) then RevokeAll(t, u, at) else map[]
    ensures forall s | s in t.sessions && t.sessions[s].revokedAt.None? && s !in d.revoke && t.sessions[s].userId in t'.users ::
              MayHold(t'.users[t.sessions[s].userId])
  {
    WriteSteps(t, t', u, write);
    hide ChangedUsers, GoodWrite;
    forall s | s in t.sessions && t.sessions[s].revokedAt.None? && s !in d.revoke && t.sessions[s].userId in t'.users
      ensures MayHold(t'.users[t.sessions[s].userId])
    {
      assert MayHold(t.users[t.sessions[s].userId]);
    }
  }

  lemma LockoutSafe(w: World, u: UserId, write: UserWrite, active: seq<SessionId>, c: Clock, before: Time)
    requires Inv(w, before) && Ordered(c) && before < c.begin
    requires GoodWrite(w.tables, u, write) && Bars(write) && IsActiveList(active, w.tables, u, c.query)
    ensures Safe(w, LockoutPlan(u, write, RevokeAll(w.tables, u, c.revoke), active), c.end)
  {
    hide *;
    ClockSpan(c);
    TablesOfInv(w, before);
    var d := Delta(Change(u, write), RevokeAll(w.tables, u, c.revoke), map[]);
    WriteGood(w.tables, u, write, d.revoke, c.revoke, before, c.end);
    RevokedAllPurged(w.tables, u, active, c);
    SafePurgeCommit(w, PurgeKeys(active), d, before, c.end);
    DelSafe(w, DelAll(PurgeKeys(active)) + [Commit(d)], UserKey(u), c.end);
    LockoutPlanSplit(u, write, d.revoke, active);
  }

  lemma TablesOfInv(w: World, now: Time)
    requires Inv(w, now)
    ensures TablesOk(w.tables, now)
  {
  }

  lemma LockoutPlanSplit(u: UserId, write: UserWrite, revoke: map<SessionId, Time>, active: seq<SessionId>)
    ensures LockoutPlan(u, write, revoke, active)
         == DelAll(PurgeKeys(active)) + [Commit(Delta(Change(u, write), revoke, map[]))] + [Del(UserKey(u))]
  {
    var d := Delta(Change(u, write), revoke, map[]);
    assert LockoutPlan(u, write, d.revoke, active) == DelAll(PurgeKeys(active)) + [Commit(d)] + [Del(UserKey(u))];
  }

  lemma DelSafe(w: World, es: seq<Effect>, key: Key, now: Time)
    requires Safe(w, es, now)
    ensures Safe(w, es + [Del(key)], now)
  {
    assert es[..|es|] == es;
    InvBelow(Apply(Play(w, es), Del(key)), Play(w, es), now);
    SafeSnoc(w, es, Del(key), now);
  }

  lemma ProfileSafe(w: World, u: UserId, write: UserWrite, before: Time, now: Time)
    requires Inv(w, before) && before < now && GoodWrite(w.tables, u, write) && !Bars(write)
    ensures Safe(w, [Commit(Delta(Change(u, write), map[], map[]))], now)
    ensures Safe(w, ProfilePlan(u, write), now)
  {
    var d := Delta(Change(u, write), map[], map[]);
    WriteGood(w.tables, u, write, map[], now, before, now);
    SafePurgeCommit(w, [], d, before, now);
    assert DelAll([]) + [Commit(d)] == [Commit(d)];
    DelSafe(w, [Commit(d)], UserKey(u), now);
    assert ProfilePlan(u, write) == [Commit(d)] + [Del(UserKey(u))];
  }

  // ---- The gate -------------------------------------------------------------------------------

  /** The gate only ever warms the cache with rows as they stand. */
  ghost predicate WarmsOnly(t: Tables, es: seq<Effect>, c: Clock) {
    forall i | 0 <= i < |es| :: Warms(t, es[i], c)
  }

  ghost predicate Warms(t: Tables, e: Effect, c: Clock) {
    || (exists s :: s in t.sessions && e == WarmSession(s, t.sessions[s], c))
    || (exists u :: Visible(t, u) && e == WarmIdentity(u, t.users[u], c))
  }

  lemma GateWarmsOnly(t: Tables, r: Reads, q: Request, c: Clock)
    requires q.Gate?
    ensures WarmsOnly(t, ServeGate(t, r, q, c).effects, c)
  {
  }

  lemma {:induction false} WarmingSafe(w: World, es: seq<Effect>, c: Clock, now: Time)
    requires Inv(w, now) && WarmsOnly(w.tables, es, c)
    ensures Safe(w, es, now)
    ensures IdentitiesFresh(w) ==> IdentitiesFresh(Play(w, es))
    ensures Play(w, es).tables == w.tables && Play(w, es).issued == w.issued
  {
    if es != [] {
      var front, last := es[..|es| - 1], es[|es| - 1];
      assert es == front + [last];
      assert WarmsOnly(w.tables, front, c) by {
        forall i | 0 <= i < |front| ensures Warms(w.tables, front[i], c) { assert Warms(w.tables, es[i], c); }
      }
      WarmingSafe(w, front, c, now);
      assert front[..|front|] == front;
      assert Inv(Play(w, front), now);
      hide Inv, IdentitiesFresh, WarmIdentity, WarmSession;
      assert Warms(w.tables, es[|es| - 1], c);
      if s :| s in w.tables.sessions && last == WarmSession(s, w.tables.sessions[s], c) {
        CacheSessionKeeps(Play(w, front), s, WARM_SECONDS, c.warmSession, now);
        assert last == CacheSession(s, w.tables.sessions[s], WARM_SECONDS, c.warmSession);
      } else {
        var u :| Visible(w.tables, u) && last == WarmIdentity(u, w.tables.users[u], c);
        WarmIdentityKeeps(Play(w, front), u, c, now);
      }
      SafeSnoc(w, front, last, now);
    }
  }
}
