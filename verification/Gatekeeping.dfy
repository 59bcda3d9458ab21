/** The cached gate against a gate without a cache, and who is kept out. */
module Gatekeeping {
  import opened Types
  import opened Tokens
  import opened Store
  import opened Protocol
  import opened Invariants
  import opened Commits
  import opened Requests
  import opened Runs
  import opened Transactions
  import opened FreeRuns

  // ---- Cached identities -------------------------------------------------------------

  ghost predicate IsUserCommand(q: Request) {
    q.CreateUser? || q.UpdateUser? || q.SetUserPassword? || q.ChangeStatus? || q.DeleteUser?
  }

  /** A user command drops `user:{id}` after its commit, so identities are only as fresh as it gets to finish. */
  ghost predicate Settled(w: World, e: Event) {
    IsUserCommand(e.req) ==> Finished(w, e)
  }

  ghost predicate LeavesUsers(es: seq<Effect>) {
    forall i | 0 <= i < |es| :: (es[i].Put? ==> !es[i].key.UserKey?) && (es[i].Commit? ==> es[i].delta.change == NoChange)
  }

  lemma {:induction false} LeavesUsersFresh(w: World, es: seq<Effect>)
    requires IdentitiesFresh(w) && LeavesUsers(es)
    ensures IdentitiesFresh(Play(w, es))
  {
    if es != [] {
      assert forall i | 0 <= i < |es| - 1 :: es[..|es| - 1][i] == es[i];
      LeavesUsersFresh(w, es[..|es| - 1]);
    }
  }

  lemma SessionRequestsLeaveUsers(w: World, e: Event)
    requires e.req.Login? || e.req.RefreshToken? || e.req.Logout? || e.req.LogoutAll?
    ensures LeavesUsers(Answer(w, e).effects)
  {
    hide EntryFor, Evicted, RevokeAll, EvictMap;
  }

  lemma LeavesUsersPrefix(es: seq<Effect>, k: nat)
    requires LeavesUsers(es) && k <= |es|
    ensures LeavesUsers(es[..k])
  {
  }

  /** A finished user command leaves the identity it wrote uncached. */
  lemma WritePlanFresh(w: World, u: UserId, write: UserWrite, revoke: map<SessionId, Time>, active: seq<SessionId>)
    requires IdentitiesFresh(w) && GoodWrite(w.tables, u, write)
    ensures IdentitiesFresh(Play(w, LockoutPlan(u, write, revoke, active)))
    ensures IdentitiesFresh(Play(w, ProfilePlan(u, write)))
    ensures write.Create? ==> IdentitiesFresh(Play(w, [Commit(Delta(Change(u, write), map[], map[]))]))
  {
    hide PurgeKeys, LockoutPlan;
    LockoutPlanSplit(u, write, revoke, active);
    var dels := DelAll(PurgeKeys(active));
    PlayDels(w, PurgeKeys(active));
    PlaySnoc(w, dels, Commit(Delta(Change(u, write), revoke, map[])));
    PlaySnoc(w, dels + [Commit(Delta(Change(u, write), revoke, map[]))], Del(UserKey(u)));
    WrittenFresh(Play(w, dels), u, write, revoke);
    var commit := [Commit(Delta(Change(u, write), map[], map[]))];
    assert ProfilePlan(u, write) == commit + [Del(UserKey(u))];
    PlaySnoc(w, [], commit[0]);
    assert [] + [commit[0]] == commit;
    PlaySnoc(w, commit, Del(UserKey(u)));
    WrittenFresh(w, u, write, map[]);
  }

  lemma WrittenFresh(w: World, u: UserId, write: UserWrite, revoke: map<SessionId, Time>)
    requires IdentitiesFresh(w) && GoodWrite(w.tables, u, write)
    ensures IdentitiesFresh(Apply(Apply(w, Commit(Delta(Change(u, write), revoke, map[]))), Del(UserKey(u))))
    ensures write.Create? ==> IdentitiesFresh(Apply(w, Commit(Delta(Change(u, write), revoke, map[]))))
  {
  }

  lemma UserEventFresh(w: World, e: Event, before: Time)
    requires IdentitiesFresh(w) && Inputs(w, before, e) && IsUserCommand(e.req)
    ensures IdentitiesFresh(Play(w, Answer(w, e).effects))
  {
    hide *;
    CommandKinds(e.req);
    UserShape(w, e, before);
    PlayNothing(w);
    WritePlanIs(w, e);
    if Answer(w, e).effects != [] {
      var write :| && GoodWrite(w.tables, e.req.id, write)
                   && Answer(w, e).effects == WritePlan(w, e, write)
                   && (Bars(write) ==> IsActiveList(e.seen.active, w.tables, e.req.id, e.clock.query));
      WritePlanFresh(w, e.req.id, write, RevokeAll(w.tables, e.req.id, e.clock.revoke), e.seen.active);
    }
  }

  lemma CommandKinds(q: Request)
    ensures IsUserCommand(q) <==> (q.CreateUser? || q.UpdateUser? || q.SetUserPassword? || q.ChangeStatus? || q.DeleteUser?)
  {
  }

  lemma GatePrefixFresh(w: World, e: Event, before: Time)
    requires IdentitiesFresh(w) && Inv(w, before) && Inputs(w, before, e) && e.req.Gate? && e.done <= |Answer(w, e).effects|
    ensures IdentitiesFresh(Play(w, Answer(w, e).effects[..e.done]))
  {
    hide *;
    InputsClock(w, e, before);
    InvLater(w, before, e.clock.end);
    AnswerGate(w, e);
    GateWarmsOnly(w.tables, e.seen, e.req, e.clock);
    WarmsOnlyPrefix(w.tables, Answer(w, e).effects, e.clock, e.done);
    WarmingSafe(w, Answer(w, e).effects[..e.done], e.clock, e.clock.end);
  }

  lemma WarmsOnlyPrefix(t: Tables, es: seq<Effect>, c: Clock, k: nat)
    requires WarmsOnly(t, es, c) && k <= |es|
    ensures WarmsOnly(t, es[..k], c)
  {
    forall i | 0 <= i < k ensures Warms(t, es[..k][i], c) {
      assert Warms(t, es[i], c);
    }
  }

  lemma StepKeepsIdentities(w: World, before: Time, e: Event, w': World)
    requires Inv(w, before) && IdentitiesFresh(w) && Step(w, before, e, w') && (IsUserCommand(e.req) ==> Finished(w, e))
    ensures IdentitiesFresh(w')
  {
    hide *;
    StepParts(w, before, e, w');
    CommandKinds(e.req);
    var es := Answer(w, e).effects;
    assert es[..|es|] == es;
    FinishedIs(w, e);
    if IsUserCommand(e.req) {
      UserEventFresh(w, e, before);
    } else if e.req.Gate? {
      GatePrefixFresh(w, e, before);
    } else {
      SessionRequestsLeaveUsers(w, e);
      LeavesUsersPrefix(es, e.done);
      LeavesUsersFresh(w, es[..e.done]);
    }
    InvBelow(w', Play(w, es[..e.done]), e.clock.end);
  }

  lemma FinishedIs(w: World, e: Event)
    ensures Finished(w, e) <==> e.done == |Answer(w, e).effects|
  {
    hide Answer;
  }

  ghost predicate SettledRun(ws: seq<World>, es: seq<Event>) {
    Run(ws, es) && forall i | 0 <= i < |es| :: Settled(ws[i], es[i])
  }

  lemma {:induction false} ReachableIdentities(ws: seq<World>, es: seq<Event>, i: nat)
    requires SettledRun(ws, es) && i <= |es|
    ensures IdentitiesFresh(ws[i])
  {
    hide Inv, Step, Initial, IdentitiesFresh, Finished, IsUserCommand;
    if i == 0 {
      InitialOk(ws[0]);
    } else {
      ReachableIdentities(ws, es, i - 1);
      Reachable(ws, es, i - 1);
      StepKeepsIdentities(ws[i - 1], ClockBefore(es, i - 1), es[i - 1], ws[i]);
    }
  }

  // ---- The cached gate refines the direct one ------------------------------------------

  /** The cache answered with a live projection that calls a revoked session unrevoked. */
  ghost predicate StaleHit(t: Tables, r: Reads, q: Request, c: Clock)
    requires q.Gate?
  {
    && DecodeToken(q.token, c.decode).Some?
    && q.token.claims.kind == Access
    && q.token.claims.sid.Some?
    && var s := q.token.claims.sid.value;
       && s in t.sessions && t.sessions[s].revokedAt.Some?
       && ReadSession(r.cache, s, c.readSession).Some?
       && ReadSession(r.cache, s, c.readSession).value.IsActive(c.check)
  }

  /** With identities fresh, the cached gate errs exactly on a stale hit, whatever else the cache holds. */
  lemma GateErrsExactly(w: World, r: Reads, q: Request, c: Clock)
    requires q.Gate? && SessionsTyped(w) && IdentitiesFresh(w) && Submap(r.cache, w.cache)
    ensures ServeGate(w.tables, r, q, c).result != DirectGate(w.tables, q, c) <==> StaleHit(w.tables, r, q, c)
  {
    hide SessionsTyped, IdentitiesFresh, Submap, ReadSession, ReadIdentity;
    SessionSeen(w, r, c);
    if q.token.Signed? {
      IdentitySeen(w, r, q.token.claims.sub, c);
    }
  }

  /** A projection the gate sees agrees with its row on user and expiry, and on revocation unless it is stale. */
  lemma SessionSeen(w: World, r: Reads, c: Clock)
    requires SessionsTyped(w) && Submap(r.cache, w.cache)
    ensures forall s :: ReadSession(r.cache, s, c.readSession).Some? ==>
              var v := ReadSession(r.cache, s, c.readSession).value;
              && s in w.tables.sessions
              && v.userId == w.tables.sessions[s].userId
              && v.expiresAt == w.tables.sessions[s].expiresAt
              && (v.revokedAt.Some? ==> w.tables.sessions[s].revokedAt.Some?)
  {
    forall s | ReadSession(r.cache, s, c.readSession).Some?
      ensures
        var v := ReadSession(r.cache, s, c.readSession).value;
        && s in w.tables.sessions
        && v.userId == w.tables.sessions[s].userId
        && v.expiresAt == w.tables.sessions[s].expiresAt
        && (v.revokedAt.Some? ==> w.tables.sessions[s].revokedAt.Some?)
    {
      assert SessionKey(s) in r.cache;
      assert SameSession(w.cache[SessionKey(s)].value.validation, s, w.tables);
    }
  }

  lemma NoStaleHit(w: World, before: Time, r: Reads, q: Request, c: Clock)
    requires q.Gate? && SessionsTyped(w) && NoStaleActive(w, before) && before < c.check && Submap(r.cache, w.cache)
    ensures !StaleHit(w.tables, r, q, c)
  {
  }

  lemma GateIsDirect(w: World, before: Time, r: Reads, q: Request, c: Clock)
    requires q.Gate? && Inv(w, before) && IdentitiesFresh(w)
    requires Ordered(c) && before < c.begin && Submap(r.cache, w.cache)
    ensures ServeGate(w.tables, r, q, c).result == DirectGate(w.tables, q, c)
  {
    hide TablesOk, TokensOwned, GraceExact, SessionsTyped, NoStaleActive, IdentitiesFresh, ServeGate, DirectGate, StaleHit, Ordered;
    ClockSpan(c);
    NoStaleHit(w, before, r, q, c);
    GateErrsExactly(w, r, q, c);
  }

  lemma IdentitySeen(w: World, r: Reads, u: UserId, c: Clock)
    requires IdentitiesFresh(w) && Submap(r.cache, w.cache)
    ensures ReadIdentity(r.cache, u, c.readNext).Some? ==>
              Visible(w.tables, u) && ReadIdentity(r.cache, u, c.readNext).value == IdentityOf(u, w.tables.users[u])
  {
    if UserKey(u) in r.cache {
      assert UserKey(u) in w.cache && r.cache[UserKey(u)] == w.cache[UserKey(u)];
    }
  }

  /**
   * In every reachable world, for any mix of hits, misses and vanished entries,
   * the gate answers exactly as a gate that reads both tables directly.
   */
  lemma GateRefines(ws: seq<World>, es: seq<Event>, i: nat, r: Reads, q: Request, c: Clock)
    requires SettledRun(ws, es) && i <= |es| && q.Gate?
    requires Ordered(c) && ClockBefore(es, i) < c.begin && Submap(r.cache, ws[i].cache)
    ensures ServeGate(ws[i].tables, r, q, c).result == DirectGate(ws[i].tables, q, c)
  {
    hide Inv, IdentitiesFresh, Step, Initial, ServeGate, DirectGate, Ordered, Settled;
    Reachable(ws, es, i);
    ReachableIdentities(ws, es, i);
    GateIsDirect(ws[i], ClockBefore(es, i), r, q, c);
  }

  /** The token names a live session of its own subject, and the gate hits an identity the row no longer bears out. */
  ghost predicate StaleIdentity(t: Tables, r: Reads, q: Request, c: Clock)
    requires q.Gate?
  {
    && DecodeToken(q.token, c.decode).Some?
    && q.token.claims.kind == Access
    && q.token.claims.sid.Some?
    && var s, u := q.token.claims.sid.value, q.token.claims.sub;
       && s in t.sessions && t.sessions[s].revokedAt.None? && c.check <= t.sessions[s].expiresAt
       && t.sessions[s].userId == u && u in t.users
       && ReadIdentity(r.cache, u, c.readNext).Some?
       && StatusVerdict(ReadIdentity(r.cache, u, c.readNext).value) != StatusVerdict(IdentityOf(u, t.users[u]))
  }

  lemma IdentityErrsExactly(w: World, before: Time, r: Reads, q: Request, c: Clock)
    requires q.Gate? && Inv(w, before) && Ordered(c) && before < c.begin && Submap(r.cache, w.cache)
    ensures ServeGate(w.tables, r, q, c).result != DirectGate(w.tables, q, c) <==> StaleIdentity(w.tables, r, q, c)
  {
    hide TablesOk, TokensOwned, GraceExact, SessionsTyped, NoStaleActive, Ordered, Submap, ReadSession, ReadIdentity, StatusVerdict;
    ClockSpan(c);
    SessionSeen(w, r, c);
    NoStaleHit(w, before, r, q, c);
    if q.token.Signed? && q.token.claims.sid.Some? {
      LiveOwner(w, before, q.token.claims.sid.value);
    }
  }

  lemma LiveOwner(w: World, now: Time, s: SessionId)
    requires Inv(w, now)
    ensures s in w.tables.sessions && w.tables.sessions[s].revokedAt.None? ==> Visible(w.tables, w.tables.sessions[s].userId)
  {
  }

  /**
   * With user commands stopped anywhere, too, the gate errs exactly on an
   * identity left behind between such a command's commit and its purge; no
   * session hit ever misleads it.
   */
  lemma GateErrsOnIdentities(ws: seq<World>, es: seq<Event>, i: nat, r: Reads, q: Request, c: Clock)
    requires Run(ws, es) && i <= |es| && q.Gate?
    requires Ordered(c) && ClockBefore(es, i) < c.begin && Submap(r.cache, ws[i].cache)
    ensures ServeGate(ws[i].tables, r, q, c).result != DirectGate(ws[i].tables, q, c) <==> StaleIdentity(ws[i].tables, r, q, c)
  {
    hide Inv, Step, Initial, ServeGate, DirectGate, Ordered, StaleIdentity;
    Reachable(ws, es, i);
    IdentityErrsExactly(ws[i], ClockBefore(es, i), r, q, c);
  }

  // ---- Keeping out ---------------------------------------------------------------------

  /** What the request sees of sessions is in the cache; identities may be arbitrarily stale. */
  ghost predicate SeesSessions(r: Reads, w: World) {
    forall s | SessionKey(s) in r.cache :: SessionKey(s) in w.cache && r.cache[SessionKey(s)] == w.cache[SessionKey(s)]
  }

  /** The gate admits only on an unrevoked, unexpired session of the token's own subject. */
  lemma AdmittedHolds(w: World, before: Time, r: Reads, q: Request, c: Clock)
    requires q.Gate? && Inv(w, before) && Ordered(c) && before < c.begin && SeesSessions(r, w)
    requires ServeGate(w.tables, r, q, c).result.Admitted?
    ensures
      var claims := q.token.claims;
      && q.token.Signed? && claims.sid.Some? && claims.sid.value in w.tables.sessions
      && w.tables.sessions[claims.sid.value].userId == claims.sub
      && w.tables.sessions[claims.sid.value].revokedAt.None?
      && c.check <= w.tables.sessions[claims.sid.value].expiresAt
  {
    hide TablesOk, TokensOwned, GraceExact, ServeIdentity, Ordered;
    ClockSpan(c);
    var s := q.token.claims.sid.value;
    if ReadSession(r.cache, s, c.readSession).Some? {
      assert SessionKey(s) in r.cache;
      assert SameSession(w.cache[SessionKey(s)].value.validation, s, w.tables);
    }
  }

  /** A suspended, banned or deleted user is refused, whatever snapshot of the user is cached. */
  lemma GateRefusesLockedOut(w: World, before: Time, r: Reads, q: Request, c: Clock)
    requires q.Gate? && q.token.Signed? && Inv(w, before) && Ordered(c) && before < c.begin && SeesSessions(r, w)
    requires q.token.claims.sub in w.tables.users && !MayHold(w.tables.users[q.token.claims.sub])
    ensures !ServeGate(w.tables, r, q, c).result.Admitted?
  {
    hide *;
    if ServeGate(w.tables, r, q, c).result.Admitted? {
      AdmittedHolds(w, before, r, q, c);
      LockedOutSessions(w, before, q.token.claims.sub);
    }
  }

  lemma LockedOutSessions(w: World, now: Time, u: UserId)
    requires Inv(w, now)
    ensures u in w.tables.users && !MayHold(w.tables.users[u]) ==>
              forall s | s in w.tables.sessions && w.tables.sessions[s].userId == u :: w.tables.sessions[s].revokedAt.Some?
  {
  }

  /** In every world of a free run a locked-out user has no unrevoked session. */
  lemma LockoutIsAuthoritative(ws: seq<World>, es: seq<Event>, i: nat, u: UserId)
    requires FreeRun(ws, es) && i <= |es|
    requires u in ws[i].tables.users && !MayHold(ws[i].tables.users[u])
    ensures forall s | s in ws[i].tables.sessions && ws[i].tables.sessions[s].userId == u :: ws[i].tables.sessions[s].revokedAt.Some?
  {
    hide Inv, FreeStep, Initial, MayHold, Bare;
    FreeReachable(ws, es, i);
    BareIs(ws[i]);
    LockedOutSessions(Bare(ws[i]), ClockBefore(es, i), u);
  }

  /** The session the pair was issued for is the user's own, and revoked. */
  ghost predicate DeadPair(t: Tables, pair: TokenPair, u: UserId) {
    && pair.refresh.jti.Some? && pair.refresh.jti.value in t.sessions
    && t.sessions[pair.refresh.jti.value].userId == u
    && t.sessions[pair.refresh.jti.value].revokedAt.Some?
  }

  /**
   * A locked-out user's refresh never rotates; it can succeed only by replaying
   * a pair. With an honest cache, that pair is dead.
   */
  lemma RefreshRefusesLockedOut(w: World, before: Time, e: Event)
    requires Inv(Bare(w), before) && Inputs(w, before, e) && e.req.RefreshToken? && e.req.token.Signed?
    requires e.req.token.claims.sub in w.tables.users && !MayHold(w.tables.users[e.req.token.claims.sub])
    ensures Answer(w, e).result.Rejected? || Answer(w, e).result.Replayed?
    ensures Answer(w, e).result.Replayed? <==>
      var claims := e.req.token.claims;
      && DecodeToken(e.req.token, e.clock.decode).Some? && claims.kind == Refresh
      && InGrace(w.tables.sessions[claims.jti.value], e.clock.check)
      && ReadGrace(e.seen.cache, claims.jti.value, e.clock.readNext).Some?
    ensures GraceExact(w) && Submap(e.seen.cache, w.cache) && Answer(w, e).result.Replayed? ==>
      DeadPair(w.tables, Answer(w, e).result.pair, e.req.token.claims.sub)
  {
    hide Inv, TokensOwned, InGrace, ReadGrace, RotationPlan, LogoutAllPlan, RevokeAll, Presentable, DeadPair, GraceExact, Bare;
    BareTables(w, before);
    BareIs(w);
    LockedOutSessions(Bare(w), before, e.req.token.claims.sub);
    if e.req.token.claims.kind == Refresh {
      RefreshNames(w, e.req.token.claims);
      if GraceExact(w) && Submap(e.seen.cache, w.cache) && Answer(w, e).result.Replayed? {
        GraceIsDead(w, before, e.seen.cache, e.req.token.claims.jti.value, e.clock.readNext, e.req.token.claims.sub);
      }
    }
  }

  lemma GraceIsDead(w: World, now: Time, seen: Cache, s: SessionId, at: Time, u: UserId)
    requires TablesOk(w.tables, now) && GraceExact(w) && Submap(seen, w.cache) && ReadGrace(seen, s, at).Some?
    requires s in w.tables.sessions && w.tables.sessions[s].userId == u
    requires forall r | r in w.tables.sessions && w.tables.sessions[r].userId == u :: w.tables.sessions[r].revokedAt.Some?
    ensures DeadPair(w.tables, ReadGrace(seen, s, at).value, u)
  {
    hide UniqueNames, Lockout, Dated, WithinLimit;
    assert GraceFor(w, s, w.cache[GraceKey(s)].value);
    var n := w.cache[GraceKey(s)].value.pair.refresh.jti.value;
    assert LinkOk(w.tables, n, s);
  }
}
