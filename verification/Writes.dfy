/** What every request writes, row by row and key by key, in terms of rows and numbers alone. */
module Writes {
  import opened Types
  import opened Tokens
  import opened Store
  import opened Protocol
  import opened Invariants
  import opened Commits
  import opened Requests
  import opened Runs
  import opened Transactions
  import opened FreeRuns
  import opened Gatekeeping
  import opened History
  import opened Outcomes

  // ---- The transaction of each request ------------------------------------------------------

  ghost function DeltaOf(w: World, e: Event): Delta {
    var t, c := w.tables, e.clock;
    match e.req
    case Login(email, _, device, ip, newId) =>
      if FindByEmail(t, email).Some? then LoginDelta(FindByEmail(t, email).value, e.seen.active, device, ip, newId, c) else EMPTY_DELTA
    case RefreshToken(token, ip, newId) =>
      if !token.Signed? then EMPTY_DELTA
      else if Answer(w, e).result.Rotated? && token.claims.jti.Some? && token.claims.jti.value in t.sessions then
        RotationDelta(token.claims.jti.value, t.sessions[token.claims.jti.value], token.claims.sub, ip, newId, c)
      else Delta(NoChange, RevokeAll(t, token.claims.sub, c.revoke), map[])
    case Logout(s) => if s in t.sessions then Delta(NoChange, LogoutRevoke(s, t.sessions[s], c.revoke), map[]) else EMPTY_DELTA
    case LogoutAll(u) => Delta(NoChange, RevokeAll(t, u, c.revoke), map[])
    case Gate(_) => EMPTY_DELTA
    case CreateUser(u, email, username, name, password) => Delta(Change(u, Create(NewUser(email, username, name, password))), map[], map[])
    case UpdateUser(u, email, username) => Delta(Change(u, SetProfile(email, username)), map[], map[])
    case SetUserPassword(u, password) => Delta(Change(u, SetPassword(HashOf(password))), map[], map[])
    case ChangeStatus(u, status) =>
      Delta(Change(u, SetStatus(status)), if IsLockout(status) then RevokeAll(t, u, c.revoke) else map[], map[])
    case DeleteUser(u) => Delta(Change(u, SetDeleted(c.check)), RevokeAll(t, u, c.revoke), map[])
  }

  /** The effects of the request, when it has any. */
  ghost function PlanOf(w: World, e: Event): seq<Effect> {
    var t, c := w.tables, e.clock;
    match e.req
    case Login(email, _, device, ip, newId) =>
      if FindByEmail(t, email).Some? then LoginPlan(FindByEmail(t, email).value, e.seen.active, device, ip, newId, c) else []
    case RefreshToken(token, ip, newId) =>
      if !token.Signed? then []
      else if Answer(w, e).result.Rotated? && token.claims.jti.Some? && token.claims.jti.value in t.sessions then
        RotationPlan(token.claims.jti.value, t.sessions[token.claims.jti.value], token.claims.sub, ip, newId, c)
      else LogoutAllPlan(RevokeAll(t, token.claims.sub, c.revoke), e.seen.active)
    case Logout(s) => if s in t.sessions then LogoutPlan(s, t.sessions[s], c) else []
    case LogoutAll(u) => LogoutAllPlan(RevokeAll(t, u, c.revoke), e.seen.active)
    case Gate(_) => []
    case CreateUser(u, email, username, name, password) => [CommitWrite(u, Create(NewUser(email, username, name, password)))]
    case UpdateUser(u, email, username) => ProfilePlan(u, SetProfile(email, username))
    case SetUserPassword(u, password) => ProfilePlan(u, SetPassword(HashOf(password)))
    case ChangeStatus(u, status) =>
      if IsLockout(status) then LockoutPlan(u, SetStatus(status), RevokeAll(t, u, c.revoke), e.seen.active)
      else ProfilePlan(u, SetStatus(status))
    case DeleteUser(u) => LockoutPlan(u, SetDeleted(c.check), RevokeAll(t, u, c.revoke), e.seen.active)
  }

  lemma AnswerIsPlan(w: World, e: Event)
    requires !e.req.Gate?
    ensures Answer(w, e).effects == [] || Answer(w, e).effects == PlanOf(w, e)
  {
    hide LoginPlan, RotationPlan, LogoutAllPlan, LogoutPlan, LockoutPlan, ProfilePlan, RevokeAll, ReadGrace, InGrace, RotatedPair, LoginPair;
    hide NamesFree, NameConflict, EmailTakenFrom, UsernameTakenFrom, NewUser;
  }

  lemma PlanCommits(w: World, e: Event)
    requires PlanOf(w, e) != []
    ensures exists i :: CommitAt(PlanOf(w, e), DeltaOf(w, e), i)
  {
    hide CommitAt, Answer, LoginPlan, LoginDelta, RotationPlan, RotationDelta, LogoutAllPlan, LogoutPlan, RevokeAll, LogoutRevoke, LockoutPlan, ProfilePlan, NewUser;
    var t, c := w.tables, e.clock;
    match e.req {
      case Login(email, _, device, ip, newId) =>
        LoginCommits(FindByEmail(t, email).value, e.seen.active, device, ip, newId, c);
        assert CommitAt(PlanOf(w, e), DeltaOf(w, e), |Evicted(e.seen.active)|);
      case RefreshToken(token, ip, newId) =>
        LogoutAllCommits(RevokeAll(t, token.claims.sub, c.revoke), e.seen.active);
        if Answer(w, e).result.Rotated? && token.claims.jti.Some? && token.claims.jti.value in t.sessions {
          RotationCommits(token.claims.jti.value, t.sessions[token.claims.jti.value], token.claims.sub, ip, newId, c);
          assert CommitAt(PlanOf(w, e), DeltaOf(w, e), 1);
        } else {
          assert CommitAt(PlanOf(w, e), DeltaOf(w, e), 0);
        }
      case Logout(s) =>
        LogoutCommits(s, t.sessions[s], c);
        assert CommitAt(PlanOf(w, e), DeltaOf(w, e), 0);
      case LogoutAll(u) =>
        LogoutAllCommits(RevokeAll(t, u, c.revoke), e.seen.active);
        assert CommitAt(PlanOf(w, e), DeltaOf(w, e), 0);
      case ChangeStatus(u, status) =>
        ProfileCommits(u, SetStatus(status));
        LockoutCommits(u, SetStatus(status), RevokeAll(t, u, c.revoke), e.seen.active);
        assert CommitAt(PlanOf(w, e), DeltaOf(w, e), if IsLockout(status) then |PurgeKeys(e.seen.active)| else 0);
      case DeleteUser(u) =>
        LockoutCommits(u, SetDeleted(c.check), RevokeAll(t, u, c.revoke), e.seen.active);
        assert CommitAt(PlanOf(w, e), DeltaOf(w, e), |PurgeKeys(e.seen.active)|);
      case Gate(_) => assert false;
      case _ =>
        assert DeltaOf(w, e) == Delta(Change(e.req.id, DeltaOf(w, e).change.write), map[], map[]);
        ProfileCommits(e.req.id, DeltaOf(w, e).change.write);
        assert CommitAt(PlanOf(w, e), DeltaOf(w, e), 0);
    }
  }

  lemma CommittedAt(w: World, e: Event, d: Delta, i: nat)
    requires CommitAt(Answer(w, e).effects, d, i) && e.done <= |Answer(w, e).effects|
    ensures Committed(w, e) <==> e.done > i
  {
    hide Answer;
    var es := Answer(w, e).effects;
    forall k | 0 <= k < i ensures !es[k].Commit? {
      assert es[..i][k] == es[k];
    }
  }

  lemma NotCommitted(w: World, e: Event)
    requires Answer(w, e).effects == []
    ensures !Committed(w, e)
  {
    hide Answer;
  }

  /** The tables change by the request's transaction, if it got to its commit. */
  lemma StepWrites(w: World, before: Time, e: Event, w': World)
    requires FreeStep(w, before, e, w')
    ensures w'.tables == if Committed(w, e) then ApplyDelta(w.tables, DeltaOf(w, e)) else w.tables
    ensures Committed(w, e) ==> Answer(w, e).effects != [] && !e.req.Gate?
  {
    hide *;
    FreeParts(w, before, e, w');
    var es := Answer(w, e).effects;
    BareIs(w');
    BareIs(Play(w, es[..e.done]));
    if e.req.Gate? {
      FreeStepCases(w, before, e, w');
      BareIs(w);
      CommittedPlain(w, before, e);
    } else if es == [] {
      NotCommitted(w, e);
      assert es[..e.done] == [];
      PlayNothing(w);
    } else {
      AnswerIsPlan(w, e);
      PlanCommits(w, e);
      var i :| CommitAt(es, DeltaOf(w, e), i);
      CommittedAt(w, e, DeltaOf(w, e), i);
      TablesAt(w, es, DeltaOf(w, e), i, e.done);
    }
  }

  // ---- Users ---------------------------------------------------------------------------------

  /** The users after a request that got to its commit. */
  function UsersAfter(users: map<UserId, User>, q: Request, c: Clock): map<UserId, User> {
    match q
    case CreateUser(u, email, username, name, password) =>
      users[u := User(email, username, name, HashOf(password), Active, Member, None)]
    case UpdateUser(u, email, username) =>
      if u !in users then users
      else
        var row := users[u];
        users[u := User(if email.Some? then email.value else row.email, if username.Some? then username.value else row.username,
                        row.name, row.hashed, row.status, row.role, row.deletedAt)]
    case SetUserPassword(u, password) =>
      if u !in users then users
      else users[u := User(users[u].email, users[u].username, users[u].name, HashOf(password), users[u].status, users[u].role, users[u].deletedAt)]
    case ChangeStatus(u, status) =>
      if u !in users then users
      else users[u := User(users[u].email, users[u].username, users[u].name, users[u].hashed, status, users[u].role, users[u].deletedAt)]
    case DeleteUser(u) =>
      if u !in users then users
      else users[u := User(users[u].email, users[u].username, users[u].name, users[u].hashed, users[u].status, users[u].role, Some(c.check))]
    case _ => users
  }

  /** Each command writes its own columns of its own user, and no other request writes users. */
  lemma UserWrites(w: World, before: Time, e: Event, w': World)
    requires FreeStep(w, before, e, w')
    ensures w'.tables.users == if Committed(w, e) then UsersAfter(w.tables.users, e.req, e.clock) else w.tables.users
  {
    hide *;
    StepWrites(w, before, e, w');
    DeltaUsers(w, e);
  }

  lemma DeltaUsers(w: World, e: Event)
    ensures ApplyDelta(w.tables, DeltaOf(w, e)).users == UsersAfter(w.tables.users, e.req, e.clock)
  {
    hide LoginDelta, RotationDelta, RevokeAll, LogoutRevoke, Answer, FindByEmail;
    LoginDeltaUsers();
  }

  lemma LoginDeltaUsers()
    ensures forall u, active, device, ip, newId, c :: LoginDelta(u, active, device, ip, newId, c).change == NoChange
    ensures forall s, row, sub, ip, newId, c :: RotationDelta(s, row, sub, ip, newId, c).change == NoChange
  {
  }

  // ---- Sessions -------------------------------------------------------------------------------

  /** Every unrevoked session of the user is revoked at that time, expired ones included, and nothing else changes. */
  predicate RevokedFor(rows: map<SessionId, Session>, u: UserId, at: Time, after: map<SessionId, Session>) {
    && after.Keys == rows.Keys
    && forall s | s in rows ::
         var row := rows[s];
         after[s] == if row.userId == u && row.revokedAt == None
                     then Session(row.userId, row.expiresAt, row.createdAt, Some(at), row.previous, row.device, row.ip)
                     else row
  }

  /** `logout_all`, a lockout and a breach revoke all of the user's sessions. */
  lemma RevocationWrites(w: World, before: Time, e: Event, w': World, u: UserId)
    requires FreeStep(w, before, e, w') && Committed(w, e)
    requires
      || e.req == LogoutAll(u) || e.req == DeleteUser(u) || e.req == ChangeStatus(u, Suspended) || e.req == ChangeStatus(u, Banned)
      || (e.req.RefreshToken? && e.req.token.Signed? && e.req.token.claims.sub == u && !Answer(w, e).result.Rotated?)
    ensures RevokedFor(w.tables.sessions, u, e.clock.revoke, w'.tables.sessions)
  {
    hide FreeStep, Answer, Committed;
    StepWrites(w, before, e, w');
  }

  /** A logout revokes its session, unless that was revoked before, and nothing else. */
  lemma LogoutWrites(w: World, before: Time, e: Event, w': World, s: SessionId)
    requires FreeStep(w, before, e, w') && Committed(w, e) && e.req == Logout(s) && s in w.tables.sessions
    ensures w'.tables.sessions == w.tables.sessions[s :=
              w.tables.sessions[s].(revokedAt := if w.tables.sessions[s].revokedAt.Some? then w.tables.sessions[s].revokedAt else Some(e.clock.revoke))]
  {
    hide FreeStep, Answer, Committed;
    StepWrites(w, before, e, w');
  }

  /** A rotation revokes its session and adds a successor with the same user, expiry and device. */
  lemma RotationWrites(w: World, before: Time, e: Event, w': World)
    requires FreeStep(w, before, e, w') && Committed(w, e) && e.req.RefreshToken? && Answer(w, e).result.Rotated?
    ensures e.req.token.Signed? && e.req.token.claims.jti.Some? && e.req.token.claims.jti.value in w.tables.sessions
    ensures
      var s, c := e.req.token.claims.jti.value, e.clock;
      var row := w.tables.sessions[s];
      w'.tables.sessions == w.tables.sessions
        [s := Session(row.userId, row.expiresAt, row.createdAt, Some(c.revoke), row.previous, row.device, row.ip)]
        [e.req.newId := Session(e.req.token.claims.sub, row.expiresAt, c.created, None, Some(s), row.device, e.req.ip)]
  {
    hide FreeStep, Committed;
    StepWrites(w, before, e, w');
    RotationTokens(w, e);
    hide Answer;
    var s := e.req.token.claims.jti.value;
    RotationRows(w.tables, s, e.req.token.claims.sub, e.req.ip, e.req.newId, e.clock);
    FreshId(w, before, e, w');
  }

  lemma RotationTokens(w: World, e: Event)
    requires e.req.RefreshToken? && Answer(w, e).result.Rotated?
    ensures e.req.token.Signed? && e.req.token.claims.jti.Some? && e.req.token.claims.jti.value in w.tables.sessions
  {
    hide RotationPlan, LogoutAllPlan, RevokeAll, ReadGrace, RotatedPair, InGrace;
  }

  lemma FreshId(w: World, before: Time, e: Event, w': World)
    requires FreeStep(w, before, e, w') && (e.req.Login? || e.req.RefreshToken?)
    ensures e.req.newId !in w.tables.sessions
  {
    hide Answer, IsActiveList, Ordered, Play;
  }

  lemma RotationRows(t: Tables, s: SessionId, sub: UserId, ip: Option<string>, newId: SessionId, c: Clock)
    requires s in t.sessions
    ensures
      var row := t.sessions[s];
      newId !in t.sessions ==>
      ApplyDelta(t, RotationDelta(s, row, sub, ip, newId, c)).sessions == t.sessions
        [s := Session(row.userId, row.expiresAt, row.createdAt, Some(c.revoke), row.previous, row.device, row.ip)]
        [newId := Session(sub, row.expiresAt, c.created, None, Some(s), row.device, ip)]
  {
  }

  /** The sessions a login revokes, oldest first: what exceeds four of the five or more active ones. */
  function Crowded(active: seq<SessionId>): seq<SessionId> {
    if |active| < 5 then [] else active[..|active| - 4]
  }

  /** A login adds a session of seven days that starts a chain, and revokes the crowded-out ones, each at its own reading. */
  lemma LoginWrites(w: World, before: Time, e: Event, w': World)
    requires FreeStep(w, before, e, w') && Committed(w, e) && e.req.Login? && Answer(w, e).result.LoggedIn?
    ensures
      var u, c, drop := Answer(w, e).result.info.id, e.clock, Crowded(e.seen.active);
      var rows, after := w.tables.sessions, w'.tables.sessions;
      && IsActiveList(e.seen.active, w.tables, u, c.query)
      && after.Keys == rows.Keys + {e.req.newId}
      && after[e.req.newId] == Session(u, c.window + 604_800_000_000, c.created, None, None, e.req.device, e.req.ip)
      && (forall s | s in rows && s !in drop :: after[s] == rows[s])
      && (forall i | 0 <= i < |drop| ::
            && drop[i] in rows
            && after[drop[i]] == rows[drop[i]].(revokedAt := Some(if i < |c.evict| then c.evict[i] else c.query)))
  {
    hide FreeStep, Committed, LoginDelta, IsActiveList;
    StepWrites(w, before, e, w');
    FreshId(w, before, e, w');
    LoginListed(w, before, e, w');
    LoginAnswer(w, e);
    var u := Answer(w, e).result.info.id;
    hide Answer;
    LoginRows(w.tables, u, e.seen.active, e.req.device, e.req.ip, e.req.newId, e.clock);
  }

  lemma LoginListed(w: World, before: Time, e: Event, w': World)
    requires FreeStep(w, before, e, w') && e.req.Login? && Answer(w, e).result.LoggedIn?
    ensures IsActiveList(e.seen.active, w.tables, Answer(w, e).result.info.id, e.clock.query)
  {
    LoginAnswer(w, e);
    hide Answer, IsActiveList, Ordered, Play;
  }

  lemma LoginRows(t: Tables, u: UserId, active: seq<SessionId>, device: Option<string>, ip: Option<string>, newId: SessionId, c: Clock)
    requires IsActiveList(active, t, u, c.query) && newId !in t.sessions
    ensures
      var drop := Crowded(active);
      var rows, after := t.sessions, ApplyDelta(t, LoginDelta(u, active, device, ip, newId, c)).sessions;
      && after.Keys == rows.Keys + {newId}
      && after[newId] == Session(u, c.window + 604_800_000_000, c.created, None, None, device, ip)
      && (forall s | s in rows && s !in drop :: after[s] == rows[s])
      && (forall i | 0 <= i < |drop| ::
            && drop[i] in rows
            && after[drop[i]] == rows[drop[i]].(revokedAt := Some(if i < |c.evict| then c.evict[i] else c.query)))
  {
    hide IsActiveList, EvictMap;
    var drop := Crowded(active);
    assert drop == Evicted(active);
    CrowdedRows(t, u, active, c);
    EvictTimes(drop, c);
  }

  lemma CrowdedRows(t: Tables, u: UserId, active: seq<SessionId>, c: Clock)
    requires IsActiveList(active, t, u, c.query)
    ensures NoDup(Crowded(active)) && forall i | 0 <= i < |Crowded(active)| :: Crowded(active)[i] in t.sessions
  {
    forall i | 0 <= i < |Crowded(active)| ensures Crowded(active)[i] in t.sessions {
      assert active[i] in active;
      assert active[i] in ActiveSet(t, u, c.query);
    }
  }

  lemma {:induction false} EvictTimes(drop: seq<SessionId>, c: Clock)
    requires NoDup(drop)
    ensures forall s :: s in EvictMap(drop, c) <==> s in drop
    ensures forall i | 0 <= i < |drop| :: EvictMap(drop, c)[drop[i]] == if i < |c.evict| then c.evict[i] else c.query
  {
    if drop != [] {
      var front := drop[..|drop| - 1];
      EvictTimes(front, c);
      assert drop == front + [drop[|drop| - 1]];
      assert forall i | 0 <= i < |front| :: drop[i] == front[i];
    }
  }

  // ---- Which requests commit -------------------------------------------------------------------

  /** A finished request has committed exactly when it answers a success that writes, or a breach. */
  lemma FinishedCommits(w: World, e: Event)
    requires Finished(w, e)
    ensures Committed(w, e) <==>
      || Answer(w, e).result.LoggedIn? || Answer(w, e).result.Rotated? || Answer(w, e).result == Rejected(ReuseDetected)
      || (&& Answer(w, e).result == Done
          && !(e.req.UpdateUser? && e.req.newEmail == None && e.req.newUsername == None)
          && !(e.req.Logout? && e.req.session !in w.tables.sessions))
  {
    hide *;
    FinishedIs(w, e);
    EffectsWhen(w, e);
    if e.req.Gate? {
      GatePuts(w, e);
      GateCommitsNothing(w, e);
    } else if Answer(w, e).effects == [] {
      NotCommitted(w, e);
    } else {
      AnswerIsPlan(w, e);
      PlanCommits(w, e);
      var i :| CommitAt(PlanOf(w, e), DeltaOf(w, e), i);
      CommittedAt(w, e, DeltaOf(w, e), i);
      CommitWithin(PlanOf(w, e), DeltaOf(w, e), i);
    }
  }

  lemma CommitWithin(es: seq<Effect>, d: Delta, i: nat)
    requires CommitAt(es, d, i)
    ensures i < |es|
  {
  }

  lemma GateCommitsNothing(w: World, e: Event)
    requires e.req.Gate? && forall i | 0 <= i < |Answer(w, e).effects| :: Answer(w, e).effects[i].Put?
    ensures !Committed(w, e)
  {
    hide Answer;
  }

  lemma EffectsWhen(w: World, e: Event)
    ensures e.req.Gate? ==> Answer(w, e).result.Admitted? || (Answer(w, e).result.Rejected? && Answer(w, e).result.reason != ReuseDetected)
    ensures !e.req.Gate? ==> (Answer(w, e).effects != [] <==>
      || Answer(w, e).result.LoggedIn? || Answer(w, e).result.Rotated? || Answer(w, e).result == Rejected(ReuseDetected)
      || (&& Answer(w, e).result == Done
          && !(e.req.UpdateUser? && e.req.newEmail == None && e.req.newUsername == None)
          && !(e.req.Logout? && e.req.session !in w.tables.sessions)))
  {
    hide RevokeAll, ReadGrace, InGrace, RotatedPair, LoginPair, NamesFree, EmailTakenFrom, UsernameTakenFrom, NewUser, PurgeKeys, SessionKeys, Evicted, ReadSession, ReadIdentity, EntryFor, LoginDelta, RotationDelta;
    hide CacheSession;
  }

  // ---- What a finished request leaves in the cache ----------------------------------------------

  /** The cache after playing deletions and then a few more effects. */
  lemma PlayPurge(w: World, keys: seq<Key>, rest: seq<Effect>)
    ensures Play(w, DelAll(keys) + rest) == Play(w.(cache := w.cache - (set k | k in keys)), rest)
  {
    PlayConcat(w, DelAll(keys), rest);
    PlayDels(w, keys);
  }

  lemma PlayFew(w: World, es: seq<Effect>)
    ensures es == [] ==> Play(w, es) == w
    ensures |es| == 1 ==> Play(w, es) == Apply(w, es[0])
    ensures |es| == 2 ==> Play(w, es) == Apply(Apply(w, es[0]), es[1])
    ensures |es| == 3 ==> Play(w, es) == Apply(Apply(Apply(w, es[0]), es[1]), es[2])
    ensures |es| == 5 ==> Play(w, es) == Apply(Apply(Apply(Apply(Apply(w, es[0]), es[1]), es[2]), es[3]), es[4])
  {
    hide Apply;
    assert Play(w, es[..0]) == w;
    if |es| <= 5 {
      assert es[..|es|] == es;
      if |es| > 0 { PlayNext(w, es, 0); }
      if |es| > 1 { PlayNext(w, es, 1); }
      if |es| > 2 { PlayNext(w, es, 2); }
      if |es| > 3 { PlayNext(w, es, 3); }
      if |es| > 4 { PlayNext(w, es, 4); }
    }
  }

  /** The keys of these sessions. */
  function KeysOf(ids: seq<SessionId>): set<Key> {
    (set s | s in ids :: SessionKey(s)) + (set s | s in ids :: GraceKey(s))
  }

  lemma PurgeKeysAre(ids: seq<SessionId>)
    ensures (set k | k in PurgeKeys(ids)) == KeysOf(ids)
  {
    PurgeKeysMembers(ids);
    forall k ensures k in PurgeKeys(ids) <==> k in KeysOf(ids) {
      match k
      case SessionKey(s) =>
      case GraceKey(s) =>
      case UserKey(u) =>
    }
  }

  /** A login drops the sessions it crowds out, and caches the new one for seven days. */
  lemma LoginCaches(w: World, e: Event)
    requires e.req.Login? && Answer(w, e).result.LoggedIn?
    ensures
      var u, c := Answer(w, e).result.info.id, e.clock;
      Play(w, Answer(w, e).effects).cache ==
        (w.cache - (set s | s in Crowded(e.seen.active) :: SessionKey(s)))
          [SessionKey(e.req.newId) := Entry(SessionValue(SessionValidation(e.req.newId, u, c.window + 604_800_000_000, None)),
                                            Some(c.putSession + 604_800_000_000))]
  {
    hide *;
    LoginAnswer(w, e);
    AnswerIsPlan(w, e);
    LoginPlanOf(w, e);
    var u, active := Answer(w, e).result.info.id, e.seen.active;
    var keys := SessionKeys(Evicted(active));
    var rest := LoginRest(u, active, e.req.device, e.req.ip, e.req.newId, e.clock);
    PlayPurge(w, keys, rest);
    LoginRestCaches(w.(cache := w.cache - (set k | k in keys)), u, active, e.req.device, e.req.ip, e.req.newId, e.clock);
    CrowdedKeys(active);
  }

  /** What a login does once room is made. */
  function LoginRest(u: UserId, active: seq<SessionId>, device: Option<string>, ip: Option<string>, newId: SessionId, c: Clock): seq<Effect> {
    [Commit(LoginDelta(u, active, device, ip, newId, c)), Issue(newId, LoginPair(u, newId, c)),
     CacheSession(newId, LoginRow(u, device, ip, c), REFRESH_SECONDS, c.putSession)]
  }

  lemma LoginPlanOf(w: World, e: Event)
    requires e.req.Login? && FindByEmail(w.tables, e.req.email).Some?
    ensures
      var u, active := FindByEmail(w.tables, e.req.email).value, e.seen.active;
      PlanOf(w, e) == DelAll(SessionKeys(Evicted(active))) + LoginRest(u, active, e.req.device, e.req.ip, e.req.newId, e.clock)
  {
    hide FindByEmail, SessionKeys, Evicted, LoginDelta, LoginPair, CacheSession, LoginRow, DelAll;
  }

  lemma LoginRestCaches(w: World, u: UserId, active: seq<SessionId>, device: Option<string>, ip: Option<string>, newId: SessionId, c: Clock)
    ensures Play(w, LoginRest(u, active, device, ip, newId, c)).cache ==
      w.cache[SessionKey(newId) := Entry(SessionValue(SessionValidation(newId, u, c.window + 604_800_000_000, None)), Some(c.putSession + 604_800_000_000))]
  {
    PlayFew(w, LoginRest(u, active, device, ip, newId, c));
    hide Play, LoginDelta, LoginPair, ApplyDelta;
  }

  lemma CrowdedKeys(active: seq<SessionId>)
    ensures (set k | k in SessionKeys(Evicted(active))) == (set s | s in Crowded(active) :: SessionKey(s))
  {
    assert Evicted(active) == Crowded(active);
    SessionKeysMembers(Crowded(active));
    forall k ensures k in SessionKeys(Crowded(active)) <==> k in (set s | s in Crowded(active) :: SessionKey(s)) {
      match k
      case SessionKey(s) =>
      case GraceKey(s) =>
      case UserKey(u) =>
    }
  }

  /** A cached successor expires with its row, to the second; in the last second of the chain it never does. */
  predicate ChainEntry(entry: Entry, n: SessionId, u: UserId, expiresAt: Time, c: Clock) {
    && entry.value == SessionValue(SessionValidation(n, u, expiresAt, None))
    && (entry.expiry == None <==> expiresAt < c.window + 1_000_000)
    && (entry.expiry.Some? ==> expiresAt < entry.expiry.value + 1_000_000 && entry.expiry.value <= expiresAt + (c.putSession - c.window))
  }

  /** A rotation drops its session, caches the successor, and keeps the pair for thirty seconds. */
  lemma RotationCaches(w: World, e: Event)
    requires e.req.RefreshToken? && Answer(w, e).result.Rotated? && Ordered(e.clock)
    ensures e.req.token.Signed? && e.req.token.claims.jti.Some? && e.req.token.claims.jti.value in w.tables.sessions
    ensures
      var s, after := e.req.token.claims.jti.value, Play(w, Answer(w, e).effects).cache;
      && SessionKey(e.req.newId) in after
      && ChainEntry(after[SessionKey(e.req.newId)], e.req.newId, e.req.token.claims.sub, w.tables.sessions[s].expiresAt, e.clock)
      && after == (w.cache - {SessionKey(s)})
                    [SessionKey(e.req.newId) := after[SessionKey(e.req.newId)]]
                    [GraceKey(s) := Entry(PairValue(Answer(w, e).result.pair), Some(e.clock.putGrace + 30_000_000))]
  {
    RotationTokens(w, e);
    RotationEffects(w, e);
    var s, c, claims := e.req.token.claims.jti.value, e.clock, e.req.token.claims;
    var row := w.tables.sessions[s];
    var entry := EntryFor(SessionValue(Project(e.req.newId, RotatedRow(s, row, claims.sub, e.req.ip, c))),
                          Some(RemainingSeconds(row.expiresAt, c.window)), c.putSession);
    assert ChainEntry(entry, e.req.newId, claims.sub, row.expiresAt, c);
    hide Answer, Play, ChainEntry, RemainingSeconds, RotationDelta, RotatedPair;
    PlayFew(w, RotationPlan(s, row, claims.sub, e.req.ip, e.req.newId, c));
    assert PutEntry(Answer(w, e).result.pair, c.putGrace);
  }

  predicate PutEntry(pair: TokenPair, at: Time) {
    EntryFor(PairValue(pair), Some(GRACE_SECONDS), at) == Entry(PairValue(pair), Some(at + 30_000_000))
  }

  lemma RotationEffects(w: World, e: Event)
    requires e.req.RefreshToken? && Answer(w, e).result.Rotated?
    requires e.req.token.Signed? && e.req.token.claims.jti.Some? && e.req.token.claims.jti.value in w.tables.sessions
    ensures
      var s, claims := e.req.token.claims.jti.value, e.req.token.claims;
      var row := w.tables.sessions[s];
      && Answer(w, e).effects == RotationPlan(s, row, claims.sub, e.req.ip, e.req.newId, e.clock)
      && Answer(w, e).result.pair == RotatedPair(row, claims.sub, e.req.newId, e.clock)
  {
    hide RotationPlan, LogoutAllPlan, RevokeAll, ReadGrace, RotatedPair, InGrace;
  }

  /** A logout drops both keys of its session. */
  lemma LogoutCaches(w: World, e: Event, s: SessionId)
    requires e.req == Logout(s) && s in w.tables.sessions
    ensures Play(w, Answer(w, e).effects).cache == w.cache - {SessionKey(s), GraceKey(s)}
  {
    var es := LogoutPlan(s, w.tables.sessions[s], e.clock);
    assert Answer(w, e).effects == es;
    hide Answer, Play, LogoutRevoke;
    PlayFew(w, es);
    assert w.cache - {SessionKey(s)} - {GraceKey(s)} == w.cache - {SessionKey(s), GraceKey(s)};
  }

  /** `logout_all` and a breach drop both keys of each active session. */
  lemma RevocationCaches(w: World, e: Event)
    requires e.req.LogoutAll? || (e.req.RefreshToken? && Answer(w, e).result == Rejected(ReuseDetected))
    ensures Play(w, Answer(w, e).effects).cache == w.cache - KeysOf(e.seen.active)
  {
    EffectsWhen(w, e);
    AnswerIsPlan(w, e);
    var d := DeltaOf(w, e);
    var keys := PurgeKeys(e.seen.active);
    RevocationPlan(w, e);
    hide Answer, Play, RevokeAll, PurgeKeys, DelAll, PlanOf, DeltaOf;
    PlayConcat(w, [Commit(d)], DelAll(keys));
    PlayFew(w, [Commit(d)]);
    PlayDels(Apply(w, Commit(d)), keys);
    PurgeKeysAre(e.seen.active);
  }

  lemma RevocationPlan(w: World, e: Event)
    requires e.req.LogoutAll? || (e.req.RefreshToken? && Answer(w, e).result == Rejected(ReuseDetected))
    ensures Answer(w, e).effects == [Commit(DeltaOf(w, e))] + DelAll(PurgeKeys(e.seen.active))
  {
    hide RevokeAll, ReadGrace, InGrace, RotationPlan, RotatedPair, PurgeKeys;
  }

  /** A lockout drops both keys of each active session, and the identity; other commands on a user drop the identity alone. */
  lemma CommandCaches(w: World, e: Event)
    requires IsUserCommand(e.req) && Answer(w, e).effects != []
    ensures
      Play(w, Answer(w, e).effects).cache ==
        if e.req.CreateUser? then w.cache
        else if e.req.DeleteUser? || (e.req.ChangeStatus? && (e.req.status == Suspended || e.req.status == Banned)) then
          w.cache - KeysOf(e.seen.active) - {UserKey(e.req.id)}
        else w.cache - {UserKey(e.req.id)}
  {
    CommandPlan(w, e);
    var d, keys := DeltaOf(w, e), PurgeKeys(e.seen.active);
    var rest := if e.req.CreateUser? then [Commit(d)] else [Commit(d), Del(UserKey(e.req.id))];
    hide Answer, Play, PurgeKeys, DelAll, PlanOf, DeltaOf;
    PlayFew(w, rest);
    PlayPurge(w, keys, rest);
    PlayFew(w.(cache := w.cache - (set k | k in keys)), rest);
    PurgeKeysAre(e.seen.active);
  }

  lemma CommandPlan(w: World, e: Event)
    requires IsUserCommand(e.req) && Answer(w, e).effects != []
    ensures
      var d, keys := DeltaOf(w, e), PurgeKeys(e.seen.active);
      Answer(w, e).effects ==
        if e.req.CreateUser? then [Commit(d)]
        else if e.req.DeleteUser? || (e.req.ChangeStatus? && (e.req.status == Suspended || e.req.status == Banned)) then
          DelAll(keys) + [Commit(d), Del(UserKey(e.req.id))]
        else [Commit(d), Del(UserKey(e.req.id))]
  {
    AnswerIsPlan(w, e);
    hide Answer, RevokeAll, PurgeKeys, DelAll, NewUser;
  }

  /** The gate finds the session, or the identity, in what it sees of the cache. */
  predicate SeesSession(r: Reads, s: SessionId, at: Time) {
    && SessionKey(s) in r.cache && r.cache[SessionKey(s)].value.SessionValue?
    && (r.cache[SessionKey(s)].expiry == None || at <= r.cache[SessionKey(s)].expiry.value)
  }

  predicate SeesIdentity(r: Reads, u: UserId, at: Time) {
    && UserKey(u) in r.cache && r.cache[UserKey(u)].value.UserValue?
    && (r.cache[UserKey(u)].expiry == None || at <= r.cache[UserKey(u)].expiry.value)
  }

  /** Unless it found the session, the gate caches the row's projection for an hour. */
  ghost function SessionPart(t: Tables, r: Reads, token: Bearer, c: Clock): seq<Effect> {
    if !(Good(token, Access, c.decode) && token.claims.sid.Some?) then []
    else
      var s := token.claims.sid.value;
      if SeesSession(r, s, c.readSession) || s !in t.sessions then []
      else
        var row := t.sessions[s];
        [Put(SessionKey(s), Entry(SessionValue(SessionValidation(s, row.userId, row.expiresAt, row.revokedAt)), Some(c.warmSession + 3_600_000_000)))]
  }

  /** Unless it found the identity, the gate caches that of the row for an hour. */
  ghost function IdentityPart(t: Tables, r: Reads, u: UserId, c: Clock): seq<Effect> {
    if SeesIdentity(r, u, c.readNext) || u !in t.users then []
    else
      var row := t.users[u];
      [Put(UserKey(u), Entry(UserValue(Identity(u, row.email, row.status, row.role)), Some(c.warmUser + 3_600_000_000)))]
  }

  /** The session was in order, and the identity decided. */
  predicate Judged(r: Result) {
    r.Admitted? || r == Rejected(VerificationPending) || r == Rejected(AccountSuspended) || r == Rejected(AccountBanned)
  }

  /** The gate writes nothing but the session's projection, whatever it answers, and the identity if it got to judging it. */
  lemma GateWrites(w: World, e: Event)
    requires e.req.Gate?
    ensures Judged(Answer(w, e).result) ==> e.req.token.Signed?
    ensures
      Answer(w, e).effects == SessionPart(w.tables, e.seen, e.req.token, e.clock)
        + if Judged(Answer(w, e).result) then IdentityPart(w.tables, e.seen, e.req.token.claims.sub, e.clock) else []
  {
    WarmedEntries(w.tables, e.clock);
    if e.req.token.Signed? {
      var claims := e.req.token.claims;
      Sees(e.seen, if claims.sid.Some? then claims.sid.value else SessionId(""), claims.sub, e.clock);
      IdentityWrites(w.tables, e.seen, claims.sub, e.clock);
    }
    hide ReadSession, ReadIdentity, ServeIdentity, EntryFor, WarmSession, WarmIdentity, SeesSession, SeesIdentity, IdentityPart;
  }

  lemma IdentityWrites(t: Tables, r: Reads, u: UserId, c: Clock)
    ensures
      var served := ServeIdentity(t, r.cache, u, c);
      served.effects == if Judged(served.result) then IdentityPart(t, r, u, c) else []
  {
  }

  lemma Sees(r: Reads, s: SessionId, u: UserId, c: Clock)
    ensures ReadSession(r.cache, s, c.readSession).Some? <==> SeesSession(r, s, c.readSession)
    ensures ReadIdentity(r.cache, u, c.readNext).Some? <==> SeesIdentity(r, u, c.readNext)
  {
  }

  lemma WarmedEntries(t: Tables, c: Clock)
    ensures forall s | s in t.sessions ::
              var row := t.sessions[s];
              WarmSession(s, row, c) == Put(SessionKey(s), Entry(SessionValue(SessionValidation(s, row.userId, row.expiresAt, row.revokedAt)),
                                                                 Some(c.warmSession + 3_600_000_000)))
    ensures forall u | u in t.users ::
              var row := t.users[u];
              WarmIdentity(u, row, c) == Put(UserKey(u), Entry(UserValue(Identity(u, row.email, row.status, row.role)), Some(c.warmUser + 3_600_000_000)))
  {
  }
}
