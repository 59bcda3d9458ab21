/** A revoked refresh token presented again: replay inside the grace window, breach outside it. */
module Reuse {
  import opened Types
  import opened Tokens
  import opened Store
  import opened Protocol
  import opened Invariants
  import opened Commits
  import opened Requests
  import opened Runs
  import opened Transactions
  import opened FreeRuns
  import opened Gatekeeping
  import opened History

  // ---- Whose token it is ---------------------------------------------------------------

  /** Every token handed out in any run names a committed session whose user is its subject. */
  lemma TokenOwnership(ws: seq<World>, es: seq<Event>, i: nat, n: SessionId)
    requires FreeRun(ws, es) && i <= |es| && n in ws[i].issued
    ensures n in ws[i].tables.sessions
    ensures
      var pair, owner := ws[i].issued[n], ws[i].tables.sessions[n].userId;
      pair.access.sub == owner && pair.access.sid == Some(n) && pair.refresh.sub == owner && pair.refresh.jti == Some(n)
  {
    hide Inv, FreeStep, Initial, Bare;
    FreeReachable(ws, es, i);
    BareTables(ws[i], ClockBefore(es, i));
  }

  // ---- Breach ------------------------------------------------------------------------------

  /** The token is genuine, and its session has been revoked. */
  ghost predicate PresentsRevoked(w: World, e: Event) {
    && e.req.RefreshToken?
    && DecodeToken(e.req.token, e.clock.decode).Some?
    && e.req.token.claims.kind == Refresh
    && e.req.token.claims.jti.Some?
    && e.req.token.claims.jti.value in w.tables.sessions
    && w.tables.sessions[e.req.token.claims.jti.value].revokedAt.Some?
  }

  /** The user has no unrevoked session left; every row revoked before, or another user's, is as it was. */
  ghost predicate AllRevokedFor(t: Tables, u: UserId, t': Tables) {
    && t'.sessions.Keys == t.sessions.Keys && t'.users == t.users
    && (forall s | s in t'.sessions && t'.sessions[s].userId == u :: t'.sessions[s].revokedAt.Some?)
    && (forall s | s in t.sessions && (t.sessions[s].revokedAt.Some? || t.sessions[s].userId != u) :: t'.sessions[s] == t.sessions[s])
  }

  /**
   * Presenting a revoked session's token changes no row up to thirty seconds
   * after the revocation. From then on, whatever is cached and wherever the
   * request stops past its commit, it leaves the session's owner without a live
   * session, and writes nothing else.
   */
  lemma BreachExact(w: World, before: Time, e: Event, w': World)
    requires Inv(Bare(w), before) && FreeStep(w, before, e, w') && PresentsRevoked(w, e)
    ensures
      var row := w.tables.sessions[e.req.token.claims.jti.value];
      if e.clock.check <= row.revokedAt.value + 30_000_000 then
        w'.tables == w.tables && (Answer(w, e).result.Replayed? || Answer(w, e).result == Rejected(PleaseRetry))
      else
        && Answer(w, e).result == Rejected(ReuseDetected)
        && (e.done == 0 ==> w'.tables == w.tables)
        && (e.done != 0 ==> AllRevokedFor(w.tables, row.userId, w'.tables))
  {
    hide *;
    Limits();
    FreeParts(w, before, e, w');
    BareTables(w, before);
    BareIs(w');
    RevokedAnswer(w, before, e);
    var es := Answer(w, e).effects;
    BareIs(Play(w, es[..e.done]));
    if es == [] {
      assert es[..e.done] == [];
      PlayNothing(w);
    } else {
      var u := e.req.token.claims.sub;
      var revoke := RevokeAll(w.tables, u, e.clock.revoke);
      LogoutAllCommits(revoke, e.seen.active);
      TablesAt(w, es, Delta(NoChange, revoke, map[]), 0, e.done);
      RevokeAllTables(w.tables, u, e.clock.revoke);
    }
  }

  lemma RevokedAnswer(w: World, before: Time, e: Event)
    requires TokensOwned(w) && Inputs(w, before, e) && PresentsRevoked(w, e)
    ensures e.req.RefreshToken? && e.req.token.Signed? && e.req.token.claims.jti.Some?
    ensures e.req.token.claims.jti.value in w.tables.sessions
    ensures
      var row, served := w.tables.sessions[e.req.token.claims.jti.value], Answer(w, e);
      && row.revokedAt.Some? && row.userId == e.req.token.claims.sub
      && if e.clock.check <= row.revokedAt.value + GRACE_WINDOW then
           served.effects == [] && (served.result.Replayed? || served.result == Rejected(PleaseRetry))
         else
           && served == Served(LogoutAllPlan(RevokeAll(w.tables, row.userId, e.clock.revoke), e.seen.active), Rejected(ReuseDetected))
           && served.effects != []
  {
    hide RevokeAll, ReadGrace, PurgeKeys, TokensOwned, IsActiveList, Ordered, Presentable;
    RefreshNames(w, e.req.token.claims);
  }

  lemma RevokeAllTables(t: Tables, u: UserId, at: Time)
    ensures AllRevokedFor(t, u, ApplyDelta(t, Delta(NoChange, RevokeAll(t, u, at), map[])))
  {
  }

  // ---- Replay ----------------------------------------------------------------------------------

  /** A replay hands out the pair of the one successor, and writes nothing. */
  lemma ReplayExact(w: World, before: Time, e: Event)
    requires Inv(w, before) && Submap(e.seen.cache, w.cache)
    requires e.req.RefreshToken? && Answer(w, e).result.Replayed?
    ensures e.req.token.Signed? && e.req.token.claims.jti.Some? && e.req.token.claims.jti.value in w.tables.sessions
    ensures Answer(w, e).effects == []
    ensures
      var s := e.req.token.claims.jti.value;
      && InGrace(w.tables.sessions[s], e.clock.check)
      && exists n :: && n in w.issued && n in w.tables.sessions
                     && w.tables.sessions[n].previous == Some(s) && w.issued[n] == Answer(w, e).result.pair
                     && forall m | m in w.tables.sessions && w.tables.sessions[m].previous == Some(s) :: m == n
  {
    hide TokensOwned, Lockout, Dated, UniqueNames, WithinLimit, SessionsTyped, NoStaleActive, RotationPlan, LogoutAllPlan, RevokeAll;
    var s := e.req.token.claims.jti.value;
    assert GraceKey(s) in w.cache && w.cache[GraceKey(s)] == e.seen.cache[GraceKey(s)];
    assert GraceFor(w, s, w.cache[GraceKey(s)].value);
    var n := Answer(w, e).result.pair.refresh.jti.value;
    forall m | m in w.tables.sessions && w.tables.sessions[m].previous == Some(s) ensures m == n {}
  }

  /** No effect of the list writes or deletes the key. */
  ghost predicate Leaves(es: seq<Effect>, key: Key) {
    forall i | 0 <= i < |es| :: (es[i].Put? ==> es[i].key != key) && (es[i].Del? ==> es[i].gone != key)
  }

  lemma {:induction false} LeavesEntry(w: World, es: seq<Effect>, key: Key)
    requires Leaves(es, key) && key in w.cache
    ensures key in Play(w, es).cache && Play(w, es).cache[key] == w.cache[key]
  {
    if es != [] {
      assert forall i | 0 <= i < |es| - 1 :: es[..|es| - 1][i] == es[i];
      LeavesEntry(w, es[..|es| - 1], key);
    }
  }

  lemma LeavesPrefix(es: seq<Effect>, k: nat, key: Key)
    requires Leaves(es, key) && k <= |es|
    ensures Leaves(es[..k], key)
  {
  }

  lemma PurgeLeaves(keys: seq<Key>, es: seq<Effect>, es': seq<Effect>, key: Key)
    requires key !in keys && Leaves(es, key) && Leaves(es', key)
    ensures Leaves(es + DelAll(keys) + es', key)
  {
  }

  lemma LogoutAllLeaves(w: World, u: UserId, revoke: map<SessionId, Time>, active: seq<SessionId>, at: Time, s: SessionId)
    requires IsActiveList(active, w.tables, u, at) && s in w.tables.sessions && w.tables.sessions[s].revokedAt.Some?
    ensures Leaves(LogoutAllPlan(revoke, active), GraceKey(s))
    ensures forall write :: Leaves(LockoutPlan(u, write, revoke, active), GraceKey(s))
  {
    PurgeKeysMembers(active);
    assert s !in ActiveSet(w.tables, u, at);
    hide IsActiveList, ActiveSet, PurgeKeys;
    PurgeLeaves(PurgeKeys(active), [Commit(Delta(NoChange, revoke, map[]))], [], GraceKey(s));
    assert LogoutAllPlan(revoke, active) == [Commit(Delta(NoChange, revoke, map[]))] + DelAll(PurgeKeys(active)) + [];
    forall write ensures Leaves(LockoutPlan(u, write, revoke, active), GraceKey(s)) {
      var tail := [Commit(Delta(Change(u, write), revoke, map[])), Del(UserKey(u))];
      PurgeLeaves(PurgeKeys(active), [], tail, GraceKey(s));
      assert LockoutPlan(u, write, revoke, active) == [] + DelAll(PurgeKeys(active)) + tail;
    }
  }

  lemma LoginLeaves(u: UserId, active: seq<SessionId>, device: Option<string>, ip: Option<string>, newId: SessionId, c: Clock, s: SessionId)
    ensures Leaves(LoginPlan(u, active, device, ip, newId, c), GraceKey(s))
  {
    hide Evicted, EntryFor, LoginDelta;
  }

  lemma GateLeaves(w: World, e: Event, s: SessionId)
    requires e.req.Gate?
    ensures Leaves(Answer(w, e).effects, GraceKey(s))
  {
    hide ReadSession, ReadIdentity, EntryFor;
  }

  lemma UserLeaves(w: World, e: Event, before: Time, s: SessionId)
    requires Inputs(w, before, e) && IsUserCommand(e.req)
    requires s in w.tables.sessions && w.tables.sessions[s].revokedAt.Some?
    ensures Leaves(Answer(w, e).effects, GraceKey(s))
  {
    hide *;
    CommandKinds(e.req);
    UserShape(w, e, before);
    WritePlanIs(w, e);
    LeavesNothing(GraceKey(s));
    if Answer(w, e).effects != [] {
      var write :| && GoodWrite(w.tables, e.req.id, write)
                   && Answer(w, e).effects == WritePlan(w, e, write)
                   && (Bars(write) ==> IsActiveList(e.seen.active, w.tables, e.req.id, e.clock.query));
      ProfileLeaves(e.req.id, write, s);
      if Bars(write) {
        LogoutAllLeaves(w, e.req.id, RevokeAll(w.tables, e.req.id, e.clock.revoke), e.seen.active, e.clock.query, s);
      }
    }
  }

  lemma LeavesNothing(key: Key)
    ensures Leaves([], key)
  {
  }

  lemma ProfileLeaves(u: UserId, write: UserWrite, s: SessionId)
    ensures Leaves(ProfilePlan(u, write), GraceKey(s)) && Leaves([Commit(Delta(Change(u, write), map[], map[]))], GraceKey(s))
  {
  }

  lemma RotationLeaves(r: SessionId, row: Session, sub: UserId, ip: Option<string>, newId: SessionId, c: Clock, s: SessionId)
    requires r != s
    ensures Leaves(RotationPlan(r, row, sub, ip, newId, c), GraceKey(s))
  {
  }

  lemma LogoutLeaves(r: SessionId, row: Session, c: Clock, s: SessionId)
    requires r != s
    ensures Leaves(LogoutPlan(r, row, c), GraceKey(s))
  {
  }

  /** Once `s` is revoked, only a logout of `s` touches its grace entry. */
  lemma EventLeavesGrace(w: World, e: Event, before: Time, s: SessionId)
    requires TokensOwned(w) && Inputs(w, before, e) && e.req != Logout(s)
    requires s in w.tables.sessions && w.tables.sessions[s].revokedAt.Some?
    ensures Leaves(Answer(w, e).effects, GraceKey(s))
  {
    hide *;
    LeavesNothing(GraceKey(s));
    CommandKinds(e.req);
    match e.req {
      case Login(_, _, _, _, _) =>
        LoginShape(w, e, before);
        if Answer(w, e).effects != [] {
          LoginLeaves(FindByEmail(w.tables, e.req.email).value, e.seen.active, e.req.device, e.req.ip, e.req.newId, e.clock, s);
        }
      case RefreshToken(_, _, _) =>
        RefreshShape(w, e, before);
        if Answer(w, e).effects != [] {
          var claims := e.req.token.claims;
          if RevokesFirst(w, e) {
            LogoutAllLeaves(w, claims.sub, RevokeAll(w.tables, claims.sub, e.clock.revoke), e.seen.active, e.clock.query, s);
          } else {
            RotationLeaves(claims.jti.value, w.tables.sessions[claims.jti.value], claims.sub, e.req.ip, e.req.newId, e.clock, s);
          }
        }
      case Logout(r) =>
        AnswerLogout(w, e);
        if r in w.tables.sessions { LogoutLeaves(r, w.tables.sessions[r], e.clock, s); }
      case LogoutAll(u) =>
        AnswerLogout(w, e);
        ListQueried(w, e, before);
        LogoutAllLeaves(w, u, RevokeAll(w.tables, u, e.clock.revoke), e.seen.active, e.clock.query, s);
      case Gate(_) => GateLeaves(w, e, s);
      case _ => UserLeaves(w, e, before, s);
    }
  }

  /** The step loses no cache entry. */
  ghost predicate Lossless(w: World, e: Event, w': World) {
    e.done <= |Answer(w, e).effects| && w'.cache == Play(w, Answer(w, e).effects[..e.done]).cache
  }

  lemma {:induction false} GraceSurvives(ws: seq<World>, es: seq<Event>, i: nat, j: nat, s: SessionId)
    requires Run(ws, es) && i <= j <= |es|
    requires forall k | i <= k < j :: Lossless(ws[k], es[k], ws[k + 1]) && es[k].req != Logout(s)
    requires s in ws[i].tables.sessions && ws[i].tables.sessions[s].revokedAt.Some? && GraceKey(s) in ws[i].cache
    ensures GraceKey(s) in ws[j].cache && ws[j].cache[GraceKey(s)] == ws[i].cache[GraceKey(s)]
    decreases j
  {
    hide Inv, Step, Initial, Lossless;
    if i < j {
      GraceSurvives(ws, es, i, j - 1, s);
      Reachable(ws, es, j - 1);
      RevokedRunFinal(ws, es, i, j - 1, s);
      GraceStep(ws[j - 1], ClockBefore(es, j - 1), es[j - 1], ws[j], s);
    }
  }

  lemma RevokedRunFinal(ws: seq<World>, es: seq<Event>, i: nat, j: nat, s: SessionId)
    requires Run(ws, es) && i <= j <= |es|
    requires s in ws[i].tables.sessions && ws[i].tables.sessions[s].revokedAt.Some?
    ensures s in ws[j].tables.sessions && ws[j].tables.sessions[s] == ws[i].tables.sessions[s]
  {
    hide Step, Initial, FreeRun;
    RunIsFree(ws, es);
    RevocationFinal(ws, es, i, j, s);
  }

  lemma GraceStep(w: World, before: Time, e: Event, w': World, s: SessionId)
    requires Inv(w, before) && Step(w, before, e, w') && Lossless(w, e, w') && e.req != Logout(s)
    requires s in w.tables.sessions && w.tables.sessions[s].revokedAt.Some? && GraceKey(s) in w.cache
    ensures GraceKey(s) in w'.cache && w'.cache[GraceKey(s)] == w.cache[GraceKey(s)]
  {
    hide *;
    OwnedTokens(w, before);
    StepParts(w, before, e, w');
    LosslessIs(w, e, w');
    EventLeavesGrace(w, e, before, s);
    LeavesPrefix(Answer(w, e).effects, e.done, GraceKey(s));
    LeavesEntry(w, Answer(w, e).effects[..e.done], GraceKey(s));
  }

  /** A finished rotation leaves its predecessor revoked, with the new pair in the grace entry. */
  lemma RotationWritesGrace(w: World, s: SessionId, row: Session, sub: UserId, ip: Option<string>, newId: SessionId, c: Clock)
    requires s in w.tables.sessions && newId !in w.tables.sessions
    ensures
      var w' := Play(w, RotationPlan(s, row, sub, ip, newId, c));
      && s in w'.tables.sessions && w'.tables.sessions[s].revokedAt == Some(c.revoke)
      && GraceKey(s) in w'.cache
      && w'.cache[GraceKey(s)] == EntryFor(PairValue(RotatedPair(row, sub, newId, c)), Some(GRACE_SECONDS), c.putGrace)
  {
    var es := RotationPlan(s, row, sub, ip, newId, c);
    RotationCommits(s, row, sub, ip, newId, c);
    TablesAt(w, es, RotationDelta(s, row, sub, ip, newId, c), 1, 5);
    assert es[..5] == es;
    hide RotatedPair, EntryFor, RotatedRow;
    PlayNext(w, es, 4);
  }

  /**
   * With no loss and no logout of `s`, a refresh with the rotated token inside
   * the grace window is answered with the very pair of the rotation exactly
   * when its cache lookup comes before the entry's expiry; a lookup inside the
   * window measured from `revoked_at` always does.
   */
  lemma ReplayHits(ws: seq<World>, es: seq<Event>, i: nat, j: nat, e: Event)
    requires Run(ws, es) && i < j <= |es|
    requires Answer(ws[i], es[i]).result.Rotated? && Finished(ws[i], es[i]) && es[i].req.token.Signed? && es[i].req.token.claims.jti.Some?
    requires forall k | i <= k < j :: Lossless(ws[k], es[k], ws[k + 1])
    requires forall k | i < k < j :: es[k].req != Logout(es[i].req.token.claims.jti.value)
    requires e.req.RefreshToken? && DecodeToken(e.req.token, e.clock.decode).Some? && e.req.token.claims.kind == Refresh
    requires e.req.token.claims.jti == es[i].req.token.claims.jti && e.seen.cache == ws[j].cache
    requires e.clock.check <= es[i].clock.revoke + 30_000_000
    ensures Answer(ws[j], e).result == if e.clock.readNext <= es[i].clock.putGrace + 30_000_000
                                       then Replayed(Answer(ws[i], es[i]).result.pair) else Rejected(PleaseRetry)
    ensures e.clock.readNext <= es[i].clock.revoke + 30_000_000 ==>
              Answer(ws[j], e).result == Replayed(Answer(ws[i], es[i]).result.pair)
  {
    hide Inv, Step, Initial, Answer, Lossless, Finished;
    var w := ws[i];
    CreatedKinds(w, es[i]);
    var s := es[i].req.token.claims.jti.value;
    Reachable(ws, es, i);
    RotationEntry(w, ClockBefore(es, i), es[i], ws[i + 1]);
    GraceSurvives(ws, es, i + 1, j, s);
    RevokedRunFinal(ws, es, i + 1, j, s);
    RefreshOfRevoked(ws[j], e, s);
  }

  lemma RotationEntry(w: World, before: Time, e: Event, w': World)
    requires Inv(w, before) && Step(w, before, e, w') && Answer(w, e).result.Rotated? && Finished(w, e) && Lossless(w, e, w')
    ensures e.req.RefreshToken? && e.req.token.Signed? && e.req.token.claims.jti.Some?
    ensures e.clock.revoke <= e.clock.putGrace
    ensures
      var s := e.req.token.claims.jti.value;
      && s in w'.tables.sessions && w'.tables.sessions[s].revokedAt == Some(e.clock.revoke)
      && GraceKey(s) in w'.cache
      && w'.cache[GraceKey(s)] == EntryFor(PairValue(Answer(w, e).result.pair), Some(GRACE_SECONDS), e.clock.putGrace)
  {
    hide *;
    StepParts(w, before, e, w');
    OwnedTokens(w, before);
    CreatedKinds(w, e);
    RefreshAnswer(w, e);
    RefreshShape(w, e, before);
    NotCreating(w, e);
    FinishedIs(w, e);
    var es := Answer(w, e).effects;
    assert es[..|es|] == es;
    BelowTables(w', Play(w, es));
    LosslessIs(w, e, w');
    InputsOrdered(w, e, before);
    GraceAfterRevoke(e.clock);
    var s := e.req.token.claims.jti.value;
    RotationWritesGrace(w, s, w.tables.sessions[s], w.tables.sessions[s].userId, e.req.ip, e.req.newId, e.clock);
  }

  lemma LosslessIs(w: World, e: Event, w': World)
    requires Lossless(w, e, w')
    ensures e.done <= |Answer(w, e).effects| && w'.cache == Play(w, Answer(w, e).effects[..e.done]).cache
  {
    hide Answer, Play;
  }

  lemma GraceAfterRevoke(c: Clock)
    requires Ordered(c)
    ensures c.revoke <= c.putGrace
  {
  }

  lemma RefreshOfRevoked(w: World, e: Event, s: SessionId)
    requires e.req.RefreshToken? && DecodeToken(e.req.token, e.clock.decode).Some? && e.req.token.claims.kind == Refresh
    requires e.req.token.claims.jti == Some(s) && s in w.tables.sessions && w.tables.sessions[s].revokedAt.Some?
    requires InGrace(w.tables.sessions[s], e.clock.check)
    ensures Answer(w, e).result == match ReadGrace(e.seen.cache, s, e.clock.readNext)
                                   case Some(pair) => Replayed(pair)
                                   case None => Rejected(PleaseRetry)
  {
    hide InGrace, ReadGrace;
  }
}
