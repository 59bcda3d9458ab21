/**
 * Requests interleaved at their awaits: each step of a request reads one store,
 * or has one of its effects, and any other request may take steps between. No
 * row is locked, so a request acts on what it read.
 */
module Interleaving {
  import opened Types
  import opened Tokens
  import opened Store
  import opened Protocol
  import opened Invariants
  import opened Commits
  import opened Requests
  import R = Runs

  /** Where a request is: what it has read so far, or the effects still to come. */
  datatype Phase =
    | Start
    | LoginActive(u: UserId)
    | RefreshUser(s: SessionId, row: Session)
    | RevokeActive(u: UserId)
    | RevokeRows(u: UserId, active: seq<SessionId>)
    | UpdateEmail
    | UpdateUsername
    | LockoutActive(write: UserWrite)
    | LockoutRows(write: UserWrite, active: seq<SessionId>)
    | GateRow
    | GateWarm(v: SessionValidation)
    | GateCheck(v: SessionValidation)
    | GateIdentity(v: SessionValidation)
    | GateProfile(v: SessionValidation)
    | GateWarmUser(v: SessionValidation, who: Identity)
    | GateAdmits(v: SessionValidation, who: Identity)
    | Writing(effects: seq<Effect>)
    | Over

  datatype Proc = Proc(req: Request, clock: Clock, phase: Phase)

  datatype System = System(world: World, procs: map<nat, Proc>)

  // ---- One await -----------------------------------------------------------------------

  function Queue(es: seq<Effect>): Phase {
    if es == [] then Over else Writing(es)
  }

  function Judge(v: SessionValidation, who: Identity): Phase {
    if StatusVerdict(who).Admitted? then GateAdmits(v, who) else Over
  }

  /** The first read of each request. */
  ghost function Begin(w: World, q: Request, c: Clock, hit: bool): Phase {
    var t := w.tables;
    match q
    case Login(email, password, _, _, _) =>
      var u := FindByEmail(t, email);
      if u.Some? && VerifyPassword(password, t.users[u.value].hashed) && !IsLockout(t.users[u.value].status)
      then LoginActive(u.value) else Over
    case RefreshToken(token, _, _) =>
      var d := DecodeToken(token, c.decode);
      if d.None? || d.value.kind != Refresh || d.value.jti.None? || d.value.jti.value !in t.sessions then Over
      else
        var row := t.sessions[d.value.jti.value];
        if row.revokedAt.Some? then if InGrace(row, c.check) then Over else RevokeActive(d.value.sub)
        else if c.check > row.expiresAt then Over
        else RefreshUser(d.value.jti.value, row)
    case Logout(s) => if s in t.sessions then Queue(LogoutPlan(s, t.sessions[s], c)) else Over
    case LogoutAll(u) => RevokeActive(u)
    case Gate(token) =>
      var d := DecodeToken(token, c.decode);
      if d.None? || d.value.kind != Access || d.value.sid.None? then Over
      else
        var found := ReadSession(w.cache, d.value.sid.value, c.readSession);
        if hit && found.Some? then GateCheck(found.value) else GateRow
    case ChangeStatus(u, status) =>
      if !Visible(t, u) || !MayTransition(t.users[u].status, status) then Over
      else if IsLockout(status) then LockoutActive(SetStatus(status))
      else Queue(ProfilePlan(u, SetStatus(status)))
    case DeleteUser(u) => if Visible(t, u) then LockoutActive(SetDeleted(c.check)) else Over
    case CreateUser(u, email, username, name, password) =>
      if NameConflict(t, email, username).Some? then Over
      else Queue([CommitWrite(u, Create(NewUser(email, username, name, password)))])
    case UpdateUser(u, newEmail, newUsername) =>
      if !Visible(t, u) then Over
      else if newEmail.Some? then UpdateEmail
      else if newUsername.Some? then UpdateUsername
      else Over
    case SetUserPassword(u, password) => if Visible(t, u) then Queue(ProfilePlan(u, SetPassword(HashOf(password)))) else Over
  }

  /** The answer to a query for active sessions is one the database could give just now. */
  ghost predicate AnswerOk(w: World, p: Proc, active: seq<SessionId>) {
    match p.phase
    case LoginActive(u) => IsActiveList(active, w.tables, u, p.clock.query)
    case RevokeActive(u) => IsActiveList(active, w.tables, u, p.clock.query)
    case LockoutActive(_) => (p.req.ChangeStatus? || p.req.DeleteUser?) && IsActiveList(active, w.tables, p.req.id, p.clock.query)
    case _ => true
  }

  /** Commits go through unless they break a key or a unique index; then the transaction is rolled back. */
  ghost predicate Accepts(t: Tables, d: Delta) {
    (forall n | n in d.insert :: n !in t.sessions) && UniqueNames(ApplyDelta(t, d))
  }

  ghost function Advance(w: World, p: Proc, active: seq<SessionId>, hit: bool): (World, Phase) {
    var t, c, q := w.tables, p.clock, p.req;
    match p.phase
    case Start => (w, Begin(w, q, c, hit))
    case LoginActive(u) =>
      (w, if q.Login? then Queue(LoginPlan(u, active, q.device, q.ip, q.newId, c)) else Over)
    case RefreshUser(s, row) =>
      (w, if q.RefreshToken? && q.token.Signed? && Visible(t, q.token.claims.sub) && MayHold(t.users[q.token.claims.sub])
          then Queue(RotationPlan(s, row, q.token.claims.sub, q.ip, q.newId, c)) else Over)
    case RevokeActive(u) => (w, RevokeRows(u, active))
    case RevokeRows(u, listed) => (w, Queue(LogoutAllPlan(RevokeAll(t, u, c.revoke), listed)))
    case UpdateEmail =>
      (w, if !q.UpdateUser? || q.newEmail.None? || EmailTakenFrom(t, q.newEmail.value, q.id) then Over
          else if q.newUsername.Some? then UpdateUsername
          else Queue(ProfilePlan(q.id, SetProfile(q.newEmail, q.newUsername))))
    case UpdateUsername =>
      (w, if !q.UpdateUser? || q.newUsername.None? || UsernameTakenFrom(t, q.newUsername.value, q.id) then Over
          else Queue(ProfilePlan(q.id, SetProfile(q.newEmail, q.newUsername))))
    case LockoutActive(write) => (w, LockoutRows(write, active))
    case LockoutRows(write, listed) =>
      (w, if q.ChangeStatus? || q.DeleteUser? then Queue(LockoutPlan(q.id, write, RevokeAll(t, q.id, c.revoke), listed)) else Over)
    case GateRow =>
      (w, if q.Gate? && q.token.Signed? && q.token.claims.sid.Some? && q.token.claims.sid.value in t.sessions
          then GateWarm(Project(q.token.claims.sid.value, t.sessions[q.token.claims.sid.value])) else Over)
    case GateWarm(v) =>
      (Apply(w, Put(SessionKey(v.id), EntryFor(SessionValue(v), Some(WARM_SECONDS), c.warmSession))), GateCheck(v))
    case GateCheck(v) =>
      (w, if q.Gate? && q.token.Signed? && v.IsActive(c.check) && v.userId == q.token.claims.sub then GateIdentity(v) else Over)
    case GateIdentity(v) =>
      var found := ReadIdentity(w.cache, v.userId, c.readNext);
      (w, if hit && found.Some? then Judge(v, found.value) else GateProfile(v))
    case GateProfile(v) =>
      (w, if Visible(t, v.userId) then GateWarmUser(v, IdentityOf(v.userId, t.users[v.userId])) else Over)
    case GateWarmUser(v, who) =>
      (Apply(w, Put(UserKey(v.userId), EntryFor(UserValue(who), Some(WARM_SECONDS), c.warmUser))), Judge(v, who))
    case GateAdmits(v, who) => (w, p.phase)
    case Writing(es) =>
      if es == [] then (w, Over)
      else if es[0].Commit? && !Accepts(t, es[0].delta) then (w, Over)
      else (Apply(w, es[0]), Queue(es[1..]))
    case Over => (w, Over)
  }

  datatype Choice =
    | Arrive(id: nat, req: Request, clock: Clock)
    | Run(id: nat, active: seq<SessionId>, hit: bool)
    | Abort(id: nat)
    | Lose(keys: set<Key>)

  ghost function Next(b: System, choice: Choice): System {
    match choice
    case Arrive(id, q, c) =>
      if id in b.procs || !R.TokenOk(b.world, q) then b else b.(procs := b.procs[id := Proc(q, c, Start)])
    case Run(id, active, hit) =>
      if id !in b.procs || !AnswerOk(b.world, b.procs[id], active) then b
      else
        var (w, phase) := Advance(b.world, b.procs[id], active, hit);
        System(w, b.procs[id := b.procs[id].(phase := phase)])
    case Abort(id) => b.(procs := b.procs - {id})
    case Lose(keys) => b.(world := b.world.(cache := b.world.cache - keys))
  }

  ghost function Schedule(b: System, choices: seq<Choice>): System {
    if choices == [] then b else Next(Schedule(b, choices[..|choices| - 1]), choices[|choices| - 1])
  }

  // ---- What every interleaving keeps ------------------------------------------------------

  /** Rows stay, their columns stay, and a revocation is never taken back. */
  ghost predicate Grows(t: Tables, t': Tables) {
    forall s | s in t.sessions ::
      && s in t'.sessions
      && t'.sessions[s] == t.sessions[s].(revokedAt := t'.sessions[s].revokedAt)
      && (t.sessions[s].revokedAt.Some? ==> t'.sessions[s].revokedAt.Some?)
  }

  /** A session takes over user and expiry from its predecessor, which is revoked. */
  ghost predicate ChainsOk(t: Tables) {
    forall s | s in t.sessions && t.sessions[s].previous.Some? ::
      var p := t.sessions[s].previous.value;
      p in t.sessions && t.sessions[p].revokedAt.Some? && Inherits(t.sessions[s], t.sessions[p])
  }

  ghost predicate Inherits(row: Session, from: Session) {
    row.userId == from.userId && row.expiresAt == from.expiresAt
  }

  /** A transaction revokes the predecessor of whatever it inserts. */
  ghost predicate DeltaOk(t: Tables, d: Delta) {
    forall n | n in d.insert && d.insert[n].previous.Some? ::
      var p := d.insert[n].previous.value;
      p in d.revoke && p in t.sessions && Inherits(d.insert[n], t.sessions[p])
  }

  /** Queued effects stay right whatever others do before they take place. */
  ghost predicate QueueOk(t: Tables, es: seq<Effect>)
    decreases |es|
  {
    if es == [] then true
    else match es[0]
      case Put(SessionKey(s), entry) =>
        entry.value.SessionValue? && SameSession(entry.value.validation, s, t) && QueueOk(t, es[1..])
      case Commit(d) =>
        DeltaOk(t, d) && ((forall n | n in d.insert :: n !in t.sessions) ==> QueueOk(ApplyDelta(t, d), es[1..]))
      case Issue(n, pair) => n in t.sessions && PairFor(pair, t.sessions[n].userId, n) && QueueOk(t, es[1..])
      case _ => QueueOk(t, es[1..])
  }

  /** A refresh token presented names a session of its own subject. */
  ghost predicate Owned(t: Tables, q: Request) {
    q.RefreshToken? && q.token.Signed? && q.token.claims.kind == Refresh ==>
      var claims := q.token.claims;
      claims.jti.Some? && claims.jti.value in t.sessions && t.sessions[claims.jti.value].userId == claims.sub
  }

  ghost predicate ProcOk(t: Tables, p: Proc) {
    Owned(t, p.req) && PhaseOk(t, p)
  }

  ghost predicate PhaseOk(t: Tables, p: Proc) {
    match p.phase
    case RefreshUser(s, row) =>
      && s in t.sessions && t.sessions[s] == row.(revokedAt := t.sessions[s].revokedAt)
      && p.req.RefreshToken? && p.req.token.Signed? && row.userId == p.req.token.claims.sub
    case GateRow => Decoded(p)
    case GateWarm(v) => Presents(p, v) && SameSession(v, v.id, t)
    case GateCheck(v) => Presents(p, v) && SameSession(v, v.id, t)
    case GateIdentity(v) => Passes(t, p, v)
    case GateProfile(v) => Passes(t, p, v)
    case GateWarmUser(v, _) => Passes(t, p, v)
    case GateAdmits(v, _) => Passes(t, p, v)
    case Writing(es) => QueueOk(t, es)
    case _ => true
  }

  /** An access token, not past its expiry. */
  ghost predicate Decoded(p: Proc) {
    && p.req.Gate? && p.req.token.Signed? && p.req.token.claims.kind == Access
    && p.clock.decode / 1_000_000 <= p.req.token.claims.exp / 1_000_000
  }

  ghost predicate Presents(p: Proc, v: SessionValidation) {
    Decoded(p) && p.req.token.claims.sid == Some(v.id)
  }

  /** The gate is past its session check. */
  ghost predicate Passes(t: Tables, p: Proc, v: SessionValidation) {
    && Presents(p, v) && SameSession(v, v.id, t)
    && v.userId == p.req.token.claims.sub && p.clock.check <= v.expiresAt
  }

  ghost predicate SystemOk(b: System) {
    && ChainsOk(b.world.tables)
    && SessionsTyped(b.world) && TokensOwned(b.world)
    && forall id | id in b.procs :: ProcOk(b.world.tables, b.procs[id])
  }

  lemma GrowsSelf(t: Tables)
    ensures Grows(t, t)
  {
  }

  lemma GrowsTransitive(a: Tables, b: Tables, c: Tables)
    requires Grows(a, b) && Grows(b, c)
    ensures Grows(a, c)
  {
  }

  lemma AcceptedGrows(t: Tables, d: Delta)
    requires forall n | n in d.insert :: n !in t.sessions
    ensures Grows(t, ApplyDelta(t, d))
  {
  }

  lemma SameSessionGrows(t: Tables, t': Tables, v: SessionValidation, s: SessionId)
    requires Grows(t, t') && SameSession(v, s, t)
    ensures SameSession(v, s, t')
  {
  }

  lemma ApplyGrows(t: Tables, t': Tables, d: Delta)
    requires Grows(t, t') && forall n | n in d.insert :: n !in t'.sessions
    ensures Grows(ApplyDelta(t, d), ApplyDelta(t', d))
  {
    var a, b := ApplyDelta(t, d), ApplyDelta(t', d);
    forall s | s in a.sessions
      ensures s in b.sessions && b.sessions[s] == a.sessions[s].(revokedAt := b.sessions[s].revokedAt)
      ensures a.sessions[s].revokedAt.Some? ==> b.sessions[s].revokedAt.Some?
    {
      if s !in d.insert {
        assert t'.sessions[s] == t.sessions[s].(revokedAt := t'.sessions[s].revokedAt);
      }
    }
  }

  lemma {:induction false} QueueGrows(t: Tables, t': Tables, es: seq<Effect>)
    requires Grows(t, t') && QueueOk(t, es)
    ensures QueueOk(t', es)
    decreases |es|
  {
    hide ApplyDelta, SameSession;
    if es != [] {
      if es[0].Commit? {
        var d := es[0].delta;
        if forall n | n in d.insert :: n !in t'.sessions {
          ApplyGrows(t, t', d);
          QueueGrows(ApplyDelta(t, d), ApplyDelta(t', d), es[1..]);
        }
      } else {
        if es[0].Put? && es[0].key.SessionKey? {
          SameSessionGrows(t, t', es[0].entry.value.validation, es[0].key.session);
        }
        QueueGrows(t, t', es[1..]);
      }
    }
  }

  lemma PhaseGrows(t: Tables, t': Tables, p: Proc)
    requires Grows(t, t') && ProcOk(t, p)
    ensures ProcOk(t', p)
  {
    hide QueueOk, SameSession;
    match p.phase {
      case GateWarm(v) => SameSessionGrows(t, t', v, v.id);
      case GateCheck(v) => SameSessionGrows(t, t', v, v.id);
      case GateIdentity(v) => SameSessionGrows(t, t', v, v.id);
      case GateProfile(v) => SameSessionGrows(t, t', v, v.id);
      case GateWarmUser(v, _) => SameSessionGrows(t, t', v, v.id);
      case GateAdmits(v, _) => SameSessionGrows(t, t', v, v.id);
      case Writing(es) => QueueGrows(t, t', es);
      case _ =>
    }
  }

  // ---- The queues of each request are right when they are made ---------------------------------

  lemma {:induction false} DelsThen(t: Tables, keys: seq<Key>, rest: seq<Effect>)
    requires QueueOk(t, rest)
    ensures QueueOk(t, DelAll(keys) + rest)
    decreases |keys|
  {
    if keys == [] {
      assert DelAll(keys) + rest == rest;
    } else {
      DelsThen(t, keys[1..], rest);
      assert (DelAll(keys) + rest)[1..] == DelAll(keys[1..]) + rest;
      assert (DelAll(keys) + rest)[0] == Del(keys[0]);
    }
  }

  lemma {:induction false} DelsOk(t: Tables, keys: seq<Key>)
    ensures QueueOk(t, DelAll(keys))
  {
    DelsThen(t, keys, []);
    assert DelAll(keys) + [] == DelAll(keys);
  }

  /** A new session's projection is right once the commit ahead of it has gone through. */
  lemma InsertedSame(t: Tables, d: Delta, n: SessionId)
    requires n in d.insert
    ensures SameSession(Project(n, d.insert[n]), n, ApplyDelta(t, d))
    ensures ApplyDelta(t, d).sessions[n] == d.insert[n]
  {
  }

  lemma CommitQueued(t: Tables, d: Delta, rest: seq<Effect>)
    requires DeltaOk(t, d) && QueueOk(ApplyDelta(t, d), rest)
    ensures QueueOk(t, [Commit(d)] + rest)
  {
    hide DeltaOk, ApplyDelta;
    assert ([Commit(d)] + rest)[1..] == rest;
  }

  lemma ProjectionQueued(t: Tables, n: SessionId, entry: Entry, rest: seq<Effect>)
    requires entry.value.SessionValue? && SameSession(entry.value.validation, n, t) && QueueOk(t, rest)
    ensures QueueOk(t, [Put(SessionKey(n), entry)] + rest)
  {
    hide SameSession;
    assert ([Put(SessionKey(n), entry)] + rest)[1..] == rest;
  }

  lemma IssueQueued(t: Tables, n: SessionId, pair: TokenPair, rest: seq<Effect>)
    requires n in t.sessions && PairFor(pair, t.sessions[n].userId, n) && QueueOk(t, rest)
    ensures QueueOk(t, [Issue(n, pair)] + rest)
  {
    assert ([Issue(n, pair)] + rest)[1..] == rest;
  }

  lemma CreationQueue(t: Tables, d: Delta, n: SessionId, pair: TokenPair, entry: Entry, rest: seq<Effect>)
    requires n in d.insert && DeltaOk(t, d) && PairFor(pair, d.insert[n].userId, n) && entry.value == SessionValue(Project(n, d.insert[n]))
    requires QueueOk(ApplyDelta(t, d), rest)
    ensures QueueOk(t, [Commit(d), Issue(n, pair), Put(SessionKey(n), entry)] + rest)
  {
    hide ApplyDelta, SameSession, QueueOk, DeltaOk;
    InsertedSame(t, d, n);
    var put := [Put(SessionKey(n), entry)] + rest;
    ProjectionQueued(ApplyDelta(t, d), n, entry, rest);
    IssueQueued(ApplyDelta(t, d), n, pair, put);
    CommitQueued(t, d, [Issue(n, pair)] + put);
    assert [Commit(d), Issue(n, pair), Put(SessionKey(n), entry)] + rest == [Commit(d)] + ([Issue(n, pair)] + put);
  }

  lemma LoginQueue(t: Tables, u: UserId, active: seq<SessionId>, device: Option<string>, ip: Option<string>, newId: SessionId, c: Clock)
    ensures QueueOk(t, LoginPlan(u, active, device, ip, newId, c))
  {
    hide EvictMap, Evicted, EntryFor, QueueOk;
    NothingQueued();
    var d, row := LoginDelta(u, active, device, ip, newId, c), LoginRow(u, device, ip, c);
    var entry := EntryFor(SessionValue(Project(newId, row)), Some(REFRESH_SECONDS), c.putSession);
    EntryValue(SessionValue(Project(newId, row)), Some(REFRESH_SECONDS), c.putSession);
    CreationQueue(t, d, newId, LoginPair(u, newId, c), entry, []);
    var tail := [Commit(d), Issue(newId, LoginPair(u, newId, c)), Put(SessionKey(newId), entry)];
    assert tail + [] == tail;
    DelsThen(t, SessionKeys(Evicted(active)), tail);
  }

  lemma NothingQueued()
    ensures forall t :: QueueOk(t, [])
  {
  }

  lemma EntryValue(value: Value, ttl: Option<nat>, now: Time)
    ensures EntryFor(value, ttl, now).value == value
  {
  }

  lemma RotationQueue(t: Tables, s: SessionId, row: Session, sub: UserId, ip: Option<string>, newId: SessionId, c: Clock)
    requires s in t.sessions && t.sessions[s] == row.(revokedAt := t.sessions[s].revokedAt) && sub == row.userId
    ensures QueueOk(t, RotationPlan(s, row, sub, ip, newId, c))
  {
    hide EntryFor, QueueOk, RotatedPair, RemainingSeconds;
    var d, next := RotationDelta(s, row, sub, ip, newId, c), RotatedRow(s, row, sub, ip, c);
    var seconds := RemainingSeconds(row.expiresAt, c.window);
    var entry := EntryFor(SessionValue(Project(newId, next)), Some(seconds), c.putSession);
    EntryValue(SessionValue(Project(newId, next)), Some(seconds), c.putSession);
    var grace := Put(GraceKey(s), EntryFor(PairValue(RotatedPair(row, sub, newId, c)), Some(GRACE_SECONDS), c.putGrace));
    GraceQueued(s, grace.entry);
    RotatedPairFor(row, sub, newId, c);
    CreationQueue(t, d, newId, RotatedPair(row, sub, newId, c), entry, [grace]);
    var tail := [Commit(d), Issue(newId, RotatedPair(row, sub, newId, c)), Put(SessionKey(newId), entry)] + [grace];
    DelsThen(t, [SessionKey(s)], tail);
    assert DelAll([SessionKey(s)]) == [Del(SessionKey(s))];
    assert RotationPlan(s, row, sub, ip, newId, c) == DelAll([SessionKey(s)]) + tail;
  }

  lemma RotatedPairFor(row: Session, sub: UserId, newId: SessionId, c: Clock)
    ensures PairFor(RotatedPair(row, sub, newId, c), sub, newId)
  {
  }

  lemma GraceQueued(s: SessionId, entry: Entry)
    ensures forall t :: QueueOk(t, [Put(GraceKey(s), entry)])
  {
    assert [Put(GraceKey(s), entry)][1..] == [];
  }

  lemma RevocationQueue(t: Tables, revoke: map<SessionId, Time>, keys: seq<Key>)
    ensures QueueOk(t, [Commit(Delta(NoChange, revoke, map[]))] + DelAll(keys))
  {
    var d := Delta(NoChange, revoke, map[]);
    DelsOk(ApplyDelta(t, d), keys);
    assert ([Commit(d)] + DelAll(keys))[1..] == DelAll(keys);
  }

  lemma WriteQueue(t: Tables, u: UserId, write: UserWrite, revoke: map<SessionId, Time>, keys: seq<Key>)
    ensures QueueOk(t, DelAll(keys) + [Commit(Delta(Change(u, write), revoke, map[])), Del(UserKey(u))])
    ensures QueueOk(t, [Commit(Delta(Change(u, write), revoke, map[]))])
  {
    var d := Delta(Change(u, write), revoke, map[]);
    hide QueueOk, ApplyDelta;
    NothingQueued();
    DelsOk(ApplyDelta(t, d), [UserKey(u)]);
    assert DelAll([UserKey(u)]) == [Del(UserKey(u))];
    CommitQueued(t, d, [Del(UserKey(u))]);
    CommitQueued(t, d, []);
    assert [Commit(d)] + [Del(UserKey(u))] == [Commit(d), Del(UserKey(u))];
    assert [Commit(d)] + [] == [Commit(d)];
    DelsThen(t, keys, [Commit(d), Del(UserKey(u))]);
  }

  // ---- Every step ----------------------------------------------------------------------------------

  ghost predicate StepOk(w: World, p: Proc, w': World, phase: Phase) {
    && Grows(w.tables, w'.tables) && ChainsOk(w'.tables) && SessionsTyped(w') && TokensOwned(w')
    && PhaseOk(w'.tables, p.(phase := phase))
  }

  /** A step that only reads. */
  lemma ReadStep(w: World, p: Proc, phase: Phase)
    requires ChainsOk(w.tables) && SessionsTyped(w) && TokensOwned(w) && PhaseOk(w.tables, p.(phase := phase))
    ensures StepOk(w, p, w, phase)
  {
    hide ChainsOk, TokensOwned, SessionsTyped, PhaseOk;
    GrowsSelf(w.tables);
  }

  lemma BeginOk(w: World, p: Proc, hit: bool)
    requires SessionsTyped(w) && p.phase == Start && Owned(w.tables, p.req)
    ensures PhaseOk(w.tables, p.(phase := Begin(w, p.req, p.clock, hit)))
  {
    var t, c, q := w.tables, p.clock, p.req;
    hide QueueOk, PurgeKeys, RevokeAll;
    match q {
      case Logout(s) =>
        if s in t.sessions {
          var revoke, keys := LogoutRevoke(s, t.sessions[s], c.revoke), [SessionKey(s), GraceKey(s)];
          RevocationQueue(t, revoke, keys);
          LogoutPlanSplit(s, t.sessions[s], c);
        }
      case Gate(token) =>
        if token.Signed? && token.claims.sid.Some? && SessionKey(token.claims.sid.value) in w.cache {
          assert SameSession(w.cache[SessionKey(token.claims.sid.value)].value.validation, token.claims.sid.value, t);
        }
      case ChangeStatus(u, status) => ProfileQueue(t, u, SetStatus(status));
      case CreateUser(u, email, username, name, password) => ProfileQueue(t, u, Create(NewUser(email, username, name, password)));
      case SetUserPassword(u, password) => ProfileQueue(t, u, SetPassword(HashOf(password)));
      case _ =>
    }
  }

  lemma ProfileQueue(t: Tables, u: UserId, write: UserWrite)
    ensures QueueOk(t, ProfilePlan(u, write)) && QueueOk(t, [Commit(Delta(Change(u, write), map[], map[]))])
  {
    hide QueueOk;
    WriteQueue(t, u, write, map[], []);
    assert DelAll([]) + ProfilePlan(u, write) == ProfilePlan(u, write);
  }

  lemma WarmStep(w: World, p: Proc, v: SessionValidation, entry: Entry, phase: Phase)
    requires ChainsOk(w.tables) && SessionsTyped(w) && TokensOwned(w) && SameSession(v, v.id, w.tables)
    requires entry.value == SessionValue(v) && PhaseOk(w.tables, p.(phase := phase))
    ensures StepOk(w, p, Apply(w, Put(SessionKey(v.id), entry)), phase)
  {
    hide ChainsOk, PhaseOk, SameSession;
    GrowsSelf(w.tables);
  }

  lemma EffectStep(w: World, p: Proc, es: seq<Effect>)
    requires ChainsOk(w.tables) && SessionsTyped(w) && TokensOwned(w) && QueueOk(w.tables, es) && es != []
    requires es[0].Commit? ==> Accepts(w.tables, es[0].delta)
    ensures StepOk(w, p, Apply(w, es[0]), Queue(es[1..]))
  {
    hide UniqueNames;
    var w' := Apply(w, es[0]);
    if es[0].Commit? {
      CommitStep(w, es[0].delta);
    } else {
      GrowsSelf(w.tables);
    }
  }

  lemma CommitStep(w: World, d: Delta)
    requires ChainsOk(w.tables) && SessionsTyped(w) && TokensOwned(w) && DeltaOk(w.tables, d) && forall n | n in d.insert :: n !in w.tables.sessions
    ensures Grows(w.tables, ApplyDelta(w.tables, d)) && ChainsOk(ApplyDelta(w.tables, d))
    ensures SessionsTyped(Apply(w, Commit(d))) && TokensOwned(Apply(w, Commit(d)))
  {
    AcceptedGrows(w.tables, d);
    var w' := Apply(w, Commit(d));
    forall s | SessionKey(s) in w'.cache
      ensures w'.cache[SessionKey(s)].value.SessionValue? && SameSession(w'.cache[SessionKey(s)].value.validation, s, w'.tables)
    {
      SameSessionGrows(w.tables, w'.tables, w.cache[SessionKey(s)].value.validation, s);
    }
  }

  lemma WritingStep(w: World, p: Proc, es: seq<Effect>, active: seq<SessionId>, hit: bool)
    requires ChainsOk(w.tables) && SessionsTyped(w) && TokensOwned(w) && QueueOk(w.tables, es) && p.phase == Writing(es)
    ensures var (w', phase) := Advance(w, p, active, hit); StepOk(w, p, w', phase)
  {
    hide ChainsOk, TokensOwned, SessionsTyped, QueueOk, StepOk, Begin;
    if es == [] || (es[0].Commit? && !Accepts(w.tables, es[0].delta)) {
      ReadStep(w, p, Over);
    } else {
      EffectStep(w, p, es);
    }
  }

  lemma PlanStep(w: World, p: Proc, active: seq<SessionId>, hit: bool)
    requires PhaseOk(w.tables, p)
    requires p.phase.LoginActive? || p.phase.RefreshUser? || p.phase.RevokeActive? || p.phase.RevokeRows?
          || p.phase.LockoutActive? || p.phase.LockoutRows? || p.phase.UpdateEmail? || p.phase.UpdateUsername?
    ensures Advance(w, p, active, hit).0 == w
    ensures PhaseOk(w.tables, p.(phase := Advance(w, p, active, hit).1))
  {
    hide QueueOk, LoginPlan, RotationPlan, RevokeAll, Begin;
    var t, q, c := w.tables, p.req, p.clock;
    match p.phase {
      case LoginActive(u) => if q.Login? { LoginQueue(t, u, active, q.device, q.ip, q.newId, c); }
      case RefreshUser(s, row) =>
        if q.RefreshToken? && q.token.Signed? { RotationQueue(t, s, row, q.token.claims.sub, q.ip, q.newId, c); }
      case UpdateEmail => if q.UpdateUser? { ProfileQueue(t, q.id, SetProfile(q.newEmail, q.newUsername)); }
      case UpdateUsername => if q.UpdateUser? { ProfileQueue(t, q.id, SetProfile(q.newEmail, q.newUsername)); }
      case RevokeRows(u, listed) => RevocationQueue(t, RevokeAll(t, u, c.revoke), PurgeKeys(listed));
      case LockoutRows(write, listed) =>
        if q.ChangeStatus? || q.DeleteUser? { WriteQueue(t, q.id, write, RevokeAll(t, q.id, c.revoke), PurgeKeys(listed)); }
      case _ =>
    }
  }

  lemma GateStep(w: World, p: Proc, active: seq<SessionId>, hit: bool)
    requires ChainsOk(w.tables) && SessionsTyped(w) && TokensOwned(w) && PhaseOk(w.tables, p)
    requires p.phase.GateRow? || p.phase.GateWarm? || p.phase.GateCheck? || p.phase.GateIdentity?
          || p.phase.GateProfile? || p.phase.GateWarmUser? || p.phase.GateAdmits?
    ensures var (w', phase) := Advance(w, p, active, hit); StepOk(w, p, w', phase)
  {
    hide ChainsOk, TokensOwned, SessionsTyped, StepOk, Begin, EntryFor, StatusVerdict, ReadIdentity;
    var (w', phase) := Advance(w, p, active, hit);
    match p.phase {
      case GateWarm(v) =>
        EntryValue(SessionValue(v), Some(WARM_SECONDS), p.clock.warmSession);
        WarmStep(w, p, v, EntryFor(SessionValue(v), Some(WARM_SECONDS), p.clock.warmSession), phase);
      case GateWarmUser(v, who) =>
        WarmUserStep(w, p, v.userId, EntryFor(UserValue(who), Some(WARM_SECONDS), p.clock.warmUser), phase);
      case _ => ReadStep(w, p, phase);
    }
  }

  lemma WarmUserStep(w: World, p: Proc, u: UserId, entry: Entry, phase: Phase)
    requires ChainsOk(w.tables) && SessionsTyped(w) && TokensOwned(w) && PhaseOk(w.tables, p.(phase := phase))
    ensures StepOk(w, p, Apply(w, Put(UserKey(u), entry)), phase)
  {
    hide ChainsOk, PhaseOk, SameSession;
    GrowsSelf(w.tables);
  }

  lemma AdvanceOk(w: World, p: Proc, active: seq<SessionId>, hit: bool)
    requires ChainsOk(w.tables) && SessionsTyped(w) && TokensOwned(w) && ProcOk(w.tables, p)
    ensures var (w', phase) := Advance(w, p, active, hit); StepOk(w, p, w', phase)
  {
    hide ChainsOk, TokensOwned, SessionsTyped, StepOk, Begin, QueueOk, SameSession, Owned;
    match p.phase {
      case Start =>
        BeginOk(w, p, hit);
        ReadStep(w, p, Begin(w, p.req, p.clock, hit));
      case Writing(es) => WritingStep(w, p, es, active, hit);
      case Over => ReadStep(w, p, Over);
      case _ =>
        if p.phase.LoginActive? || p.phase.RefreshUser? || p.phase.RevokeActive? || p.phase.RevokeRows?
           || p.phase.LockoutActive? || p.phase.LockoutRows? || p.phase.UpdateEmail? || p.phase.UpdateUsername? {
          PlanStep(w, p, active, hit);
          ReadStep(w, p, Advance(w, p, active, hit).1);
        } else {
          GateStep(w, p, active, hit);
        }
    }
  }

  lemma NextOk(b: System, choice: Choice)
    requires SystemOk(b)
    ensures SystemOk(Next(b, choice)) && Grows(b.world.tables, Next(b, choice).world.tables)
  {
    hide ChainsOk, TokensOwned, SessionsTyped, PhaseOk, Owned, Advance, Grows, AnswerOk, R.TokenOk;
    var b' := Next(b, choice);
    GrowsSelf(b.world.tables);
    match choice {
      case Arrive(id, q, c) => if R.TokenOk(b.world, q) { ArrivalOk(b.world, q, c); }
      case Run(id, active, hit) =>
        if id in b.procs && AnswerOk(b.world, b.procs[id], active) {
          AdvanceOk(b.world, b.procs[id], active, hit);
          forall k | k in b'.procs ensures ProcOk(b'.world.tables, b'.procs[k]) {
            PhaseGrows(b.world.tables, b'.world.tables, b.procs[k]);
          }
        }
      case Abort(id) =>
      case Lose(keys) => LoseKeeps(b.world, keys);
    }
  }

  lemma LoseKeeps(w: World, keys: set<Key>)
    requires SessionsTyped(w) && TokensOwned(w)
    ensures SessionsTyped(w.(cache := w.cache - keys)) && TokensOwned(w.(cache := w.cache - keys))
  {
  }

  /** A request may present any token this server has handed out. */
  lemma ArrivalOk(w: World, q: Request, c: Clock)
    requires TokensOwned(w) && R.TokenOk(w, q)
    ensures ProcOk(w.tables, Proc(q, c, Start))
  {
    if q.RefreshToken? && q.token.Signed? && q.token.claims.kind == Refresh {
      R.RefreshNames(w, q.token.claims);
    }
  }

  /**
   * Under every interleaving, with requests aborted and entries lost at will: a
   * session with a successor is revoked and hands its user and expiry on, cached
   * projections agree with their rows on user and expiry, tokens name sessions
   * of their subjects, and sessions change in nothing but a revocation that is
   * never taken back.
   */
  lemma {:induction false} EveryInterleaving(b: System, choices: seq<Choice>)
    requires SystemOk(b)
    ensures SystemOk(Schedule(b, choices)) && Grows(b.world.tables, Schedule(b, choices).world.tables)
  {
    hide SystemOk, Grows, Next;
    if choices == [] {
      GrowsSelf(b.world.tables);
    } else {
      var front := Schedule(b, choices[..|choices| - 1]);
      EveryInterleaving(b, choices[..|choices| - 1]);
      NextOk(front, choices[|choices| - 1]);
      GrowsTransitive(b.world.tables, front.world.tables, Schedule(b, choices).world.tables);
    }
  }

  /** ... so every token issued, in any interleaving, names a committed session whose user is its subject ... */
  lemma InterleavedOwnership(b: System, choices: seq<Choice>, n: SessionId)
    requires SystemOk(b) && n in Schedule(b, choices).world.issued
    ensures
      var w := Schedule(b, choices).world;
      && n in w.tables.sessions
      && var pair, owner := w.issued[n], w.tables.sessions[n].userId;
         pair.access.sub == owner && pair.access.sid == Some(n) && pair.refresh.sub == owner && pair.refresh.jti == Some(n)
  {
    hide Schedule, ChainsOk, SessionsTyped, ProcOk;
    EveryInterleaving(b, choices);
  }

  /** ... and every session has its predecessor's user and expiry, the predecessor being revoked. */
  lemma InterleavedInheritance(b: System, choices: seq<Choice>, s: SessionId)
    requires SystemOk(b) && s in Schedule(b, choices).world.tables.sessions
    requires Schedule(b, choices).world.tables.sessions[s].previous.Some?
    ensures
      var t := Schedule(b, choices).world.tables;
      var p := t.sessions[s].previous.value;
      && p in t.sessions && t.sessions[p].revokedAt.Some?
      && t.sessions[p].userId == t.sessions[s].userId && t.sessions[p].expiresAt == t.sessions[s].expiresAt
  {
    hide Schedule, TokensOwned, SessionsTyped, ProcOk;
    EveryInterleaving(b, choices);
  }

  /** An empty system is in order. */
  lemma EmptySystemOk(w: World)
    requires Initial(w)
    ensures SystemOk(System(w, map[]))
  {
  }

  /** Under every interleaving the gate admits only for the session's own user, and never past its expiry or the token's. */
  lemma NeverAdmitsStrangersOrLate(b: System, choices: seq<Choice>, id: nat)
    requires SystemOk(b)
    requires id in Schedule(b, choices).procs && Schedule(b, choices).procs[id].phase.GateAdmits?
    ensures
      var b', p := Schedule(b, choices), Schedule(b, choices).procs[id];
      && p.req.Gate? && p.req.token.Signed? && p.req.token.claims.sid.Some?
      && p.clock.decode / 1_000_000 <= p.req.token.claims.exp / 1_000_000
      && var s := p.req.token.claims.sid.value;
         && s in b'.world.tables.sessions
         && b'.world.tables.sessions[s].userId == p.req.token.claims.sub
         && p.clock.check <= b'.world.tables.sessions[s].expiresAt
  {
    EveryInterleaving(b, choices);
    hide Schedule, Advance, QueueOk;
    assert PhaseOk(Schedule(b, choices).world.tables, Schedule(b, choices).procs[id]);
  }
}
