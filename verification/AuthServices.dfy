/** Login, refresh, logout and the gate, statement by statement. */
module AuthServices {
  import opened Types
  import opened Tokens
  import opened Store
  import opened Protocol
  import opened Invariants
  import opened Commits
  import opened Requests
  import opened Runs
  import opened Entities
  import opened CacheClients
  import opened Databases
  import opened Services

  // ---- The protocol's answers, one branch at a time ------------------------------------------

  lemma LoginServes(start: World, q: Request, active: seq<SessionId>, c: Clock, effects: seq<Effect>, r: Result)
    requires q.Login?
    requires FindByEmail(start.tables, q.email).Some? ==> IsActiveList(active, start.tables, FindByEmail(start.tables, q.email).value, c.query)
    requires
      match FindByEmail(start.tables, q.email)
      case None => effects == [] && r == Rejected(InvalidCredentials)
      case Some(u) =>
        var user := start.tables.users[u];
        if !VerifyPassword(q.password, user.hashed) then effects == [] && r == Rejected(InvalidCredentials)
        else if user.status == Suspended then effects == [] && r == Rejected(UserSuspended)
        else if user.status == Banned then effects == [] && r == Rejected(UserBanned)
        else effects == LoginPlan(u, active, q.device, q.ip, q.newId, c) && r == LoggedIn(LoginPair(u, q.newId, c), InfoOf(u, user))
    ensures Serves(start, effects, q, c, Reads(map[], active), r)
  {
    hide LoginPlan, LoginPair, IsActiveList;
  }

  lemma RefreshRejected(start: World, q: Request, seen: Reads, c: Clock, reason: Reason)
    requires q.RefreshToken? && ReadsOk(start, seen, q, c)
    requires ServeRefresh(start.tables, seen, q, c) == Served([], Rejected(reason))
    ensures Serves(start, [], q, c, seen, Rejected(reason))
  {
    hide ServeRefresh, ReadsOk;
  }

  lemma LoginAssembled(was: seq<Effect>, u: UserId, active: seq<SessionId>, device: Option<string>, ip: Option<string>, newId: SessionId,
                       c: Clock, row: Session, pair: TokenPair)
    requires row == Session(u, c.window + REFRESH_LIFETIME, c.created, None, None, device, ip)
    requires pair == TokenPair(CreateAccessToken(u, newId, c.mintAccess), CreateRefreshToken(u, newId, None, c.mintRefresh))
    ensures was + LoginPlan(u, active, device, ip, newId, c)
         == was + DelAll(SessionKeys(Evicted(active)))
            + [Effect.Commit(Delta(NoChange, EvictMap(Evicted(active), c), map[newId := row]))]
            + [Issue(newId, pair)]
            + [Put(SessionKey(newId), EntryFor(SessionValue(Project(newId, row)), Some(REFRESH_SECONDS), c.putSession))]
    ensures pair == LoginPair(u, newId, c)
  {
    hide Evicted, EvictMap, DelAll, SessionKeys, EntryFor, CreateToken, LoginPlan;
    LoginPlanSplit(u, active, device, ip, newId, c);
  }

  lemma RotationAssembled(was: seq<Effect>, s: SessionId, row: Session, sub: UserId, ip: Option<string>, newId: SessionId,
                          c: Clock, successor: Session, pair: TokenPair, remaining: nat)
    requires remaining == RemainingSeconds(row.expiresAt, c.window)
    requires successor == Session(sub, row.expiresAt, c.created, None, Some(s), row.device, ip)
    requires pair == TokenPair(CreateAccessToken(sub, newId, c.mintAccess),
                               CreateRefreshToken(sub, newId, Some(remaining), c.mintRefresh))
    ensures was + RotationPlan(s, row, sub, ip, newId, c)
         == was + [Del(SessionKey(s))]
            + [Effect.Commit(Delta(NoChange, map[s := c.revoke], map[newId := successor]))]
            + [Issue(newId, pair)]
            + [Put(SessionKey(newId), EntryFor(SessionValue(Project(newId, successor)), Some(remaining), c.putSession))]
            + [Put(GraceKey(s), EntryFor(PairValue(pair), Some(GRACE_SECONDS), c.putGrace))]
    ensures pair == RotatedPair(row, sub, newId, c)
  {
    hide EntryFor, CreateToken, RemainingSeconds;
  }

  lemma LogoutServes(start: World, s: SessionId, c: Clock, effects: seq<Effect>)
    requires effects == if s !in start.tables.sessions then []
                        else [Effect.Commit(Delta(NoChange, LogoutRevoke(s, start.tables.sessions[s], c.revoke), map[]))]
                             + [Del(SessionKey(s))] + [Del(GraceKey(s))]
    ensures Serves(start, effects, Request.Logout(s), c, Reads(map[], []), Done)
  {
    hide LogoutRevoke;
  }

  lemma LogoutMerged(t: Tables, s: SessionId, at: Time)
    requires s in t.sessions
    ensures
      var row := t.sessions[s];
      Merged(t, EMPTY_DELTA, s, row.(revokedAt := if row.revokedAt.Some? then row.revokedAt else Some(at)))
        == Delta(NoChange, LogoutRevoke(s, row, at), map[])
  {
    MergedRevocation(t, EMPTY_DELTA, s, at);
  }

  class AuthService {
    const b: Backend
    const repo: AuthRepository
    const users: UserService

    ghost predicate Wired() {
      repo.db == b.db && users.b == b && users.Wired()
    }

    constructor (b: Backend)
      ensures this.b == b && Wired()
    {
      this.b := b;
      this.repo := new AuthRepository(b.db);
      this.users := new UserService(b);
    }

    /** Revokes the oldest sessions, and drops each from the cache. */
    method EvictOldest(active: seq<SessionId>, ghost u: UserId, c: Clock)
      requires Wired() && b.Valid() && b.db.pending == EMPTY_DELTA
      requires IsActiveList(active, b.db.committed, u, c.query)
      modifies b`effects, b.db, b.cache, b.cache.server
      ensures b.Valid() && b.db.committed == old(b.db.committed)
      ensures b.db.pending == Delta(NoChange, EvictMap(Evicted(active), c), map[])
      ensures b.effects == old(b.effects) + DelAll(SessionKeys(Evicted(active)))
    {
      hide Play, Below, View, ClientOk, EvictMap, SessionKeys, DelAll, Merged, IsActiveList, NoDup;
      assert DelAll(SessionKeys([])) == [] by { NoKeys(); }
      assert EvictMap([], c) == map[] by { NoKeys(); NoEvictions(c); }
      assert b.effects == b.effects + [];
      if |active| >= DEVICE_LIMIT {
        var toRevoke := active[..|active| - (DEVICE_LIMIT - 1)];
        EvictedRows(active, toRevoke, b.db.committed, u, c);
        var i := 0;
        assert toRevoke[..0] == [];
        while i < |toRevoke|
          invariant 0 <= i <= |toRevoke|
          invariant b.Valid() && b.db.committed == old(b.db.committed)
          invariant b.db.pending == Delta(NoChange, EvictMap(toRevoke[..i], c), map[])
          invariant b.effects == old(b.effects) + DelAll(SessionKeys(toRevoke[..i]))
        {
          NextEviction(toRevoke, i, c);
          NextSessionKey(toRevoke, i);
          MergedRevocation(b.db.committed, b.db.pending, toRevoke[i], EvictTime(c, i));
          var oldSession := repo.ToSessionEntity(toRevoke[i]);
          oldSession.Revoke(EvictTime(c, i));
          repo.UpdateSession(oldSession);
          b.CacheDelete(SessionKey(toRevoke[i]), EvictTime(c, i));
          i := i + 1;
        }
        assert toRevoke[..i] == toRevoke;
      }
    }

    /** Creates the session in the pending transaction, commits, and only then caches the projection. */
    method PublishSession(session: UserSession, pair: TokenPair, seconds: nat, c: Clock)
      requires Wired() && b.Valid() && b.db.pending.insert == map[] && session.id !in b.db.committed.sessions
      modifies b`effects, b`issued, b.db, b.cache, b.cache.server
      ensures b.Valid() && b.db.pending == EMPTY_DELTA
      ensures b.effects == old(b.effects)
                           + [Effect.Commit(old(b.db.pending).(insert := map[session.id := session.Row()]))]
                           + [Issue(session.id, pair)]
                           + [Put(SessionKey(session.id),
                                  EntryFor(SessionValue(Project(session.id, session.Row())), Some(seconds), c.putSession))]
    {
      hide Play, Below, View, ClientOk, ApplyDelta, EntryFor;
      var ok := repo.CreateSession(session);
      assert ok;
      b.Commit();
      b.Record(session.id, pair);
      b.CacheSet(SessionKey(session.id),
                 SessionValue(SessionValidation(session.id, session.userId, session.expiresAt, session.revokedAt)),
                 Some(seconds), c.putSession);
    }

    method Authenticate(email: string, password: string, device: Option<string>, ip: Option<string>,
                        newId: SessionId, c: Clock) returns (r: Result, ghost seen: Reads)
      requires Wired() && b.Fresh() && newId !in b.db.committed.sessions
      modifies b`effects, b`issued, b.db, b.cache, b.cache.server
      ensures b.Valid() && b.db.pending == EMPTY_DELTA
      ensures Serves(b.start, b.effects, Login(email, password, device, ip, newId), c, seen, r)
    {
      hide Play, Below, View, ClientOk, Serves, IsActiveList, Evicted, EvictMap, SessionKeys, DelAll, LoginPlan, EntryFor, LoginPair, CreateToken, CreateAccessToken, CreateRefreshToken;
      ghost var q := Login(email, password, device, ip, newId);
      ghost var listed := SomeListing(b.start.tables, q, c);
      seen := Reads(map[], listed);
      var user := users.repo.GetByEmail(email);
      if user == null || !VerifyPassword(password, user.hashed) {
        LoginServes(b.start, q, listed, c, b.effects, Rejected(InvalidCredentials));
        return Rejected(InvalidCredentials), seen;
      }
      if user.status == Suspended {
        LoginServes(b.start, q, listed, c, b.effects, Rejected(UserSuspended));
        return Rejected(UserSuspended), seen;
      }
      if user.status == Banned {
        LoginServes(b.start, q, listed, c, b.effects, Rejected(UserBanned));
        return Rejected(UserBanned), seen;
      }
      var pair: TokenPair;
      pair, listed := OpenSession(user.id, device, ip, newId, c);
      seen := Reads(map[], listed);
      r := LoggedIn(pair, UserInfo(user.id, user.email, user.name, user.username, user.role));
      LoginServes(b.start, q, listed, c, b.effects, r);
    }

    /** The credentials are in order: make room under the device limit, and open a session. */
    method OpenSession(u: UserId, device: Option<string>, ip: Option<string>, newId: SessionId, c: Clock)
      returns (pair: TokenPair, ghost active: seq<SessionId>)
      requires Wired() && b.Valid() && b.db.pending == EMPTY_DELTA && newId !in b.db.committed.sessions
      modifies b`effects, b`issued, b.db, b.cache, b.cache.server
      ensures b.Valid() && b.db.pending == EMPTY_DELTA
      ensures IsActiveList(active, old(b.db.committed), u, c.query)
      ensures b.effects == old(b.effects) + LoginPlan(u, active, device, ip, newId, c)
      ensures pair == LoginPair(u, newId, c)
    {
      hide Play, Below, View, ClientOk, IsActiveList, Evicted, EvictMap, SessionKeys, DelAll, LoginPlan, EntryFor, LoginPair, CreateToken, CreateAccessToken, CreateRefreshToken;
      var activeSessions := repo.GetActiveSessionsForUser(u, c.query);
      active := activeSessions;
      EvictOldest(activeSessions, u, c);
      var accessToken := CreateAccessToken(u, newId, c.mintAccess);
      var refreshToken := CreateRefreshToken(u, newId, None, c.mintRefresh);
      var session := new UserSession(newId, Session(u, c.window + REFRESH_LIFETIME, c.created, None, None, device, ip));
      pair := TokenPair(accessToken, refreshToken);
      PublishSession(session, pair, REFRESH_SECONDS, c);
      LoginAssembled(old(b.effects), u, active, device, ip, newId, c, session.Row(), pair);
    }

    /** Commits the revocation of every session of the user, then purges the active ones from the cache. */
    method RevokeEverything(u: UserId, c: Clock) returns (ghost active: seq<SessionId>)
      requires Wired() && b.Valid() && b.db.pending == EMPTY_DELTA
      modifies b`effects, b.db, b.cache, b.cache.server
      ensures b.Valid() && b.db.pending == EMPTY_DELTA
      ensures IsActiveList(active, old(b.db.committed), u, c.query)
      ensures b.effects == old(b.effects) + LogoutAllPlan(RevokeAll(old(b.db.committed), u, c.revoke), active)
    {
      hide Play, Below, View, ClientOk, IsActiveList, PurgeKeys, RevokeAll, DelAll;
      var sessions := repo.GetActiveSessionsForUser(u, c.query);
      active := sessions;
      repo.RevokeAllSessions(u, c.revoke);
      b.Commit();
      ghost var committed := b.effects;
      NoPurge();
      var i := 0;
      assert sessions[..0] == [] && committed + [] == committed;
      while i < |sessions|
        invariant 0 <= i <= |sessions|
        invariant b.Valid() && b.db.pending == EMPTY_DELTA
        invariant b.effects == committed + DelAll(PurgeKeys(sessions[..i]))
      {
        NextPurge(sessions, i);
        b.CacheDelete(SessionKey(sessions[i]), c.revoke);
        b.CacheDelete(GraceKey(sessions[i]), c.revoke);
        i := i + 1;
      }
      assert sessions[..i] == sessions;
    }

    method LogoutAll(u: UserId, c: Clock) returns (r: Result, ghost seen: Reads)
      requires Wired() && b.Fresh()
      modifies b`effects, b.db, b.cache, b.cache.server
      ensures b.Valid() && b.db.pending == EMPTY_DELTA
      ensures Serves(b.start, b.effects, Request.LogoutAll(u), c, seen, r)
    {
      hide Play, Below, View, ClientOk, IsActiveList, LogoutAllPlan, RevokeAll;
      ghost var active := RevokeEverything(u, c);
      seen := Reads(map[], active);
      r := Done;
    }

    method Logout(id: SessionId, c: Clock) returns (r: Result, ghost seen: Reads)
      requires Wired() && b.Fresh()
      modifies b`effects, b.db, b.cache, b.cache.server
      ensures b.Valid() && b.db.pending == EMPTY_DELTA
      ensures Serves(b.start, b.effects, Request.Logout(id), c, seen, r)
    {
      hide Play, Below, View, ClientOk, ApplyDelta, Serves, Merged, LogoutRevoke;
      seen := Reads(map[], []);
      var session := repo.GetSessionById(id);
      if session != null {
        RevokeOne(session, c);
      }
      LogoutServes(b.start, id, c, b.effects);
      r := Done;
    }

    /** Commits the revocation of one session, then purges it from the cache. */
    method RevokeOne(session: UserSession, c: Clock)
      requires Wired() && b.Valid() && b.db.pending == EMPTY_DELTA
      requires session.id in b.db.committed.sessions && session.Row() == b.db.committed.sessions[session.id]
      modifies session, b`effects, b.db, b.cache, b.cache.server
      ensures b.Valid() && b.db.pending == EMPTY_DELTA
      ensures b.effects == old(b.effects)
                           + [Effect.Commit(Delta(NoChange, LogoutRevoke(session.id, old(session.Row()), c.revoke), map[]))]
                           + [Del(SessionKey(session.id))] + [Del(GraceKey(session.id))]
    {
      hide Play, Below, View, ClientOk, ApplyDelta, Merged, LogoutRevoke;
      LogoutMerged(b.db.committed, session.id, c.revoke);
      session.Revoke(c.revoke);
      repo.UpdateSession(session);
      b.Commit();
      b.CacheDelete(SessionKey(session.id), c.end);
      b.CacheDelete(GraceKey(session.id), c.end);
    }

    method RefreshToken(token: Bearer, ip: Option<string>, newId: SessionId, c: Clock)
      returns (r: Result, ghost seen: Reads)
      requires Wired() && b.Fresh() && newId !in b.db.committed.sessions
      modifies b`effects, b`issued, b.db, b.cache, b.cache.server
      ensures b.Valid() && b.db.pending == EMPTY_DELTA
      ensures Serves(b.start, b.effects, Request.RefreshToken(token, ip, newId), c, seen, r)
    {
      hide Play, Below, View, ClientOk, Serves, ReadsOk, IsActiveList, RevokeAll, LogoutAllPlan, RotationPlan, ApplyDelta, EntryFor;
      ghost var q := Request.RefreshToken(token, ip, newId);
      ghost var listed := SomeListing(b.start.tables, q, c);
      seen := Reads(map[], listed);
      NothingSeen(b.start, q, listed, c);
      var payload := DecodeToken(token, c.decode);
      if payload.None? {
        RefreshRejected(b.start, q, seen, c, InvalidToken);
        return Rejected(InvalidToken), seen;
      }
      var claims := payload.value;
      if claims.kind != Refresh {
        RefreshRejected(b.start, q, seen, c, WrongKind);
        return Rejected(WrongKind), seen;
      }
      if claims.jti.None? {
        RefreshRejected(b.start, q, seen, c, InvalidPayload);
        return Rejected(InvalidPayload), seen;
      }
      var id := claims.jti.value;
      var session := repo.GetSessionById(id);
      if session == null {
        RefreshRejected(b.start, q, seen, c, SessionNotFound);
        return Rejected(SessionNotFound), seen;
      }
      if session.revokedAt.Some? {
        r, seen := AnswerRevoked(token, ip, newId, id, session.revokedAt.value, c);
        return;
      }
      if c.check > session.expiresAt {
        RefreshRejected(b.start, q, seen, c, SessionExpired);
        return Rejected(SessionExpired), seen;
      }
      var user := users.repo.GetById(claims.sub);
      if user == null || user.status == Banned || user.status == Suspended {
        RefreshRejected(b.start, q, seen, c, AccountBlocked);
        return Rejected(AccountBlocked), seen;
      }
      r := Rotate(session, claims.sub, ip, newId, c);
      RotationServes(b.start, q, seen, c, b.effects, r);
    }

    /** The row's `revoked_at` decides: a benign race inside the grace window, a breach outside it. */
    method AnswerRevoked(token: Bearer, ip: Option<string>, newId: SessionId, id: SessionId, revokedAt: Time, c: Clock)
      returns (r: Result, ghost seen: Reads)
      requires Wired() && b.Fresh()
      requires DecodeToken(token, c.decode).Some? && token.claims.kind == Refresh && token.claims.jti == Some(id)
      requires id in b.db.committed.sessions && b.db.committed.sessions[id].revokedAt == Some(revokedAt)
      modifies b`effects, b.db, b.cache, b.cache.server
      ensures b.Valid() && b.db.pending == EMPTY_DELTA
      ensures Serves(b.start, b.effects, Request.RefreshToken(token, ip, newId), c, seen, r)
    {
      hide Play, View, ClientOk, IsActiveList, RevokeAll, LogoutAllPlan, RotationPlan;
      ghost var q := Request.RefreshToken(token, ip, newId);
      if c.check <= revokedAt + GRACE_WINDOW {
        ghost var listed := SomeListing(b.start.tables, q, c);
        var cached: Option<Value>;
        ghost var found: Cache;
        cached, found := b.CacheGet(GraceKey(id), c.readNext);
        seen := Reads(found, listed);
        if cached.Some? && cached.value.PairValue? {
          return Replayed(cached.value.pair), seen;
        }
        return Rejected(PleaseRetry), seen;
      }
      ghost var active := RevokeEverything(token.claims.sub, c);
      seen := Reads(map[], active);
      r := Rejected(ReuseDetected);
    }

    /** Revokes the presented session and creates its successor in one transaction. */
    method Rotate(session: UserSession, sub: UserId, ip: Option<string>, newId: SessionId, c: Clock) returns (r: Result)
      requires Wired() && b.Valid() && b.db.pending == EMPTY_DELTA && session.revokedAt.None?
      requires newId !in b.db.committed.sessions
      requires session.id in b.db.committed.sessions && session.Row() == b.db.committed.sessions[session.id]
      modifies session, b`effects, b`issued, b.db, b.cache, b.cache.server
      ensures b.Valid() && b.db.pending == EMPTY_DELTA
      ensures b.effects == old(b.effects) + RotationPlan(session.id, old(session.Row()), sub, ip, newId, c)
      ensures r == Rotated(RotatedPair(old(session.Row()), sub, newId, c))
    {
      hide Play, Below, View, ClientOk, ApplyDelta, Merged, EntryFor, RotationPlan, RotatedPair, RemainingSeconds, CreateToken, CreateAccessToken, CreateRefreshToken;
      ghost var row := session.Row();
      MergedRevocation(b.db.committed, EMPTY_DELTA, session.id, c.revoke);
      session.Revoke(c.revoke);
      repo.UpdateSession(session);
      b.CacheDelete(SessionKey(session.id), c.revoke);
      var remaining := RemainingSeconds(session.expiresAt, c.window);
      var pair := TokenPair(CreateAccessToken(sub, newId, c.mintAccess),
                            CreateRefreshToken(sub, newId, Some(remaining), c.mintRefresh));
      var successor := new UserSession(newId, Session(sub, session.expiresAt, c.created, None, Some(session.id), session.device, ip));
      PublishSession(successor, pair, remaining, c);
      b.CacheSet(GraceKey(session.id), PairValue(pair), Some(GRACE_SECONDS), c.putGrace);
      RotationAssembled(old(b.effects), session.id, row, sub, ip, newId, c, successor.Row(), pair, remaining);
      r := Rotated(pair);
    }
  }

  lemma RotationServes(start: World, q: Request, seen: Reads, c: Clock, effects: seq<Effect>, r: Result)
    requires q.RefreshToken? && ReadsOk(start, seen, q, c)
    requires DecodeToken(q.token, c.decode).Some? && q.token.claims.kind == Refresh && q.token.claims.jti.Some?
    requires q.token.claims.jti.value in start.tables.sessions
    requires start.tables.sessions[q.token.claims.jti.value].revokedAt.None?
    requires c.check <= start.tables.sessions[q.token.claims.jti.value].expiresAt
    requires Visible(start.tables, q.token.claims.sub) && MayHold(start.tables.users[q.token.claims.sub])
    requires effects == RotationPlan(q.token.claims.jti.value, start.tables.sessions[q.token.claims.jti.value],
                                     q.token.claims.sub, q.ip, q.newId, c)
    requires r == Rotated(RotatedPair(start.tables.sessions[q.token.claims.jti.value], q.token.claims.sub, q.newId, c))
    ensures Serves(start, effects, q, c, seen, r)
  {
    hide ReadsOk, RotationPlan, RotatedPair;
  }

  lemma NoKeys()
    ensures DelAll(SessionKeys([])) == []
  {
  }

  lemma NoEvictions(c: Clock)
    ensures EvictMap([], c) == map[]
  {
  }

  lemma NothingSeen(start: World, q: Request, active: seq<SessionId>, c: Clock)
    requires Queried(start.tables, q, c).Some? ==> IsActiveList(active, start.tables, Queried(start.tables, q, c).value, c.query)
    ensures ReadsOk(start, Reads(map[], active), q, c)
  {
    hide Queried, IsActiveList;
  }

  /** The rows to evict are active rows, each listed once. */
  lemma EvictedRows(active: seq<SessionId>, drop: seq<SessionId>, t: Tables, u: UserId, c: Clock)
    requires IsActiveList(active, t, u, c.query) && drop == Evicted(active)
    ensures NoDup(drop) && forall i | 0 <= i < |drop| :: drop[i] in t.sessions && t.sessions[drop[i]].revokedAt.None?
  {
    forall i | 0 <= i < |drop| ensures drop[i] in t.sessions && t.sessions[drop[i]].revokedAt.None? {
      assert active[i] in active;
      assert drop[i] in ActiveSet(t, u, c.query);
    }
  }

  // ---- The gate ---------------------------------------------------------------------------------

  /** Token, session, identity, status: the dependency every protected route goes through. */
  method GetCurrentUser(b: Backend, repo: AuthRepository, users: UserService, token: Bearer, c: Clock)
    returns (r: Result, ghost seen: Reads)
    requires repo.db == b.db && users.b == b && users.Wired() && b.Fresh()
    modifies b`effects, b.cache, b.cache.server
    ensures b.Valid() && b.db.pending == EMPTY_DELTA
    ensures Serves(b.start, b.effects, Gate(token), c, seen, r)
  {
    hide Play, View, ClientOk, EntryFor, Serves;
    ghost var q := Gate(token);
    seen := Reads(map[], []);
    var payload := DecodeToken(token, c.decode);
    if payload.None? {
      GateServes(b.start, q, seen, c, b.effects, Rejected(InvalidToken));
      return Rejected(InvalidToken), seen;
    }
    var claims := payload.value;
    if claims.kind != Access {
      GateServes(b.start, q, seen, c, b.effects, Rejected(WrongKind));
      return Rejected(WrongKind), seen;
    }
    if claims.sid.None? {
      GateServes(b.start, q, seen, c, b.effects, Rejected(InvalidPayload));
      return Rejected(InvalidPayload), seen;
    }
    var session, found := VerifySession(b, repo, claims.sid.value, c);
    seen := Reads(found, []);
    if session.None? || !session.value.IsActive(c.check) {
      GateServes(b.start, q, seen, c, b.effects, Rejected(SessionInactive));
      return Rejected(SessionInactive), seen;
    }
    if session.value.userId != claims.sub {
      GateServes(b.start, q, seen, c, b.effects, Rejected(ForeignSession));
      return Rejected(ForeignSession), seen;
    }
    ghost var foundUser: Cache;
    ghost var mid, warmed := b.Stores(), b.effects;
    r, foundUser := VerifyIdentity(b, users, claims.sub, c);
    WarmingLeavesUsers(b.start, mid, warmed, foundUser, claims.sub);
    seen := Reads(found + foundUser, []);
    BothSeen(b.start, found, foundUser, claims.sid.value, claims.sub, c);
    GateServes(b.start, q, seen, c, b.effects, r);
  }

  /** The session's projection, from the cache or else from its row, which is then cached. */
  method VerifySession(b: Backend, repo: AuthRepository, s: SessionId, c: Clock)
    returns (session: Option<SessionValidation>, ghost found: Cache)
    requires repo.db == b.db && b.Fresh()
    modifies b`effects, b.cache, b.cache.server
    ensures b.Valid() && b.db.pending == EMPTY_DELTA
    ensures Submap(found, b.start.cache) && found.Keys <= {SessionKey(s)}
    ensures
      var hit := ReadSession(found, s, c.readSession);
      var t := b.start.tables;
      && session == (if hit.None? && s in t.sessions then Some(Project(s, t.sessions[s])) else hit)
      && b.effects == (if hit.None? && s in t.sessions then [WarmSession(s, t.sessions[s], c)] else [])
  {
    hide Play, View, ClientOk, EntryFor;
    var cached: Option<Value>;
    cached, found := b.CacheGet(SessionKey(s), c.readSession);
    if cached.Some? && cached.value.SessionValue? {
      session := Some(cached.value.validation);
    } else {
      var full := repo.GetSessionById(s);
      if full != null {
        var projection := SessionValidation(s, full.userId, full.expiresAt, full.revokedAt);
        b.CacheSet(SessionKey(s), SessionValue(projection), Some(WARM_SECONDS), c.warmSession);
        session := Some(projection);
      } else {
        session := None;
      }
    }
  }

  /** The user's identity, from the cache or else from the row, which is then cached; then its status. */
  method VerifyIdentity(b: Backend, users: UserService, u: UserId, c: Clock)
    returns (r: Result, ghost found: Cache)
    requires users.b == b && users.Wired() && b.Valid() && b.db.pending == EMPTY_DELTA && b.db.committed == b.start.tables
    modifies b`effects, b.cache, b.cache.server
    ensures b.Valid() && b.db.pending == EMPTY_DELTA
    ensures Submap(found, old(View(b.cache.State()))) && found.Keys <= {UserKey(u)}
    ensures
      var served := ServeIdentity(b.start.tables, found, u, c);
      b.effects == old(b.effects) + served.effects && r == served.result
  {
    hide Play, Below, View, ClientOk, EntryFor;
    var cached: Option<Value>;
    cached, found := b.CacheGet(UserKey(u), c.readNext);
    var who: Identity;
    if cached.Some? && cached.value.UserValue? {
      who := cached.value.identity;
      assert b.effects == old(b.effects) + [];
    } else {
      var user := users.repo.GetById(u);
      if user == null {
        assert b.effects == old(b.effects) + [];
        return Rejected(ProfileNotFound), found;
      }
      who := Identity(u, user.email, user.status, user.role);
      b.CacheSet(UserKey(u), UserValue(who), Some(WARM_SECONDS), c.warmUser);
    }
    match who.status {
      case PendingVerification => r := Rejected(VerificationPending);
      case Suspended => r := Rejected(AccountSuspended);
      case Banned => r := Rejected(AccountBanned);
      case Active => r := Admitted(who);
    }
  }

  lemma GateServes(start: World, q: Request, seen: Reads, c: Clock, effects: seq<Effect>, r: Result)
    requires q.Gate? && Submap(seen.cache, start.cache) && ServeGate(start.tables, seen, q, c) == Served(effects, r)
    ensures Serves(start, effects, q, c, seen, r)
  {
    hide ServeGate, Submap;
  }

  /** Warming a session does not touch what the cache says of users. */
  lemma WarmingLeavesUsers(start: World, mid: World, effects: seq<Effect>, found: Cache, u: UserId)
    requires Below(mid, Play(start, effects)) && Submap(found, mid.cache) && found.Keys <= {UserKey(u)}
    requires effects == [] || (|effects| == 1 && effects[0].Put? && effects[0].key.SessionKey?)
    ensures Submap(found, start.cache)
  {
    if effects != [] {
      assert effects[..0] == [];
    }
  }

  /** The two lookups together see what each saw alone. */
  lemma BothSeen(start: World, a: Cache, b: Cache, s: SessionId, u: UserId, c: Clock)
    requires a.Keys <= {SessionKey(s)} && b.Keys <= {UserKey(u)}
    ensures ReadSession(a + b, s, c.readSession) == ReadSession(a, s, c.readSession)
    ensures ReadIdentity(a + b, u, c.readNext) == ReadIdentity(b, u, c.readNext)
    ensures Submap(a, start.cache) && Submap(b, start.cache) ==> Submap(a + b, start.cache)
  {
  }
}
