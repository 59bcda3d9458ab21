/**
 * The services, statement by statement. Each request's method leaves in the
 * journal exactly the effects that the protocol's functions say, in order, and
 * gives their answer.
 */
module Services {
  import opened Types
  import opened Tokens
  import opened Store
  import opened Protocol
  import opened Invariants
  import opened Commits
  import opened Requests
  import opened Runs
  import opened Entities
  import opened CacheClients
  import opened Databases

  /** The request's reads are answers the stores could have given when it began. */
  ghost predicate ReadsOk(start: World, seen: Reads, q: Request, c: Clock) {
    && Submap(seen.cache, start.cache)
    && (Queried(start.tables, q, c).Some? ==> IsActiveList(seen.active, start.tables, Queried(start.tables, q, c).value, c.query))
  }

  /** The journal and the answer are those of the protocol. */
  ghost predicate Serves(start: World, effects: seq<Effect>, q: Request, c: Clock, seen: Reads, r: Result) {
    && ReadsOk(start, seen, q, c)
    && effects == Serve(start.tables, seen, q, c).effects
    && r == Serve(start.tables, seen, q, c).result
  }

  /** A request that serves is a finished step of a run. */
  lemma ServedIsStep(w: World, before: Time, q: Request, c: Clock, seen: Reads, r: Result, effects: seq<Effect>, w': World)
    requires Serves(w, effects, q, c, seen, r) && Below(w', Play(w, effects))
    requires Ordered(c) && before < c.begin && FreshIds(w, q) && TokenOk(w, q)
    ensures
      var e := Event(q, seen, c, |effects|);
      Step(w, before, e, w') && Finished(w, e) && Answer(w, e).result == r
  {
    hide Serve, Play, IsActiveList, Queried, FreshIds, TokenOk, Ordered;
    assert effects[..|effects|] == effects;
  }

  // ---- List bookkeeping ------------------------------------------------------------------

  lemma NextSessionKey(ids: seq<SessionId>, i: nat)
    requires i < |ids|
    ensures DelAll(SessionKeys(ids[..i + 1])) == DelAll(SessionKeys(ids[..i])) + [Del(SessionKey(ids[i]))]
  {
  }

  lemma NextPurge(ids: seq<SessionId>, i: nat)
    requires i < |ids|
    ensures DelAll(PurgeKeys(ids[..i + 1])) == DelAll(PurgeKeys(ids[..i])) + [Del(SessionKey(ids[i]))] + [Del(GraceKey(ids[i]))]
  {
    assert ids[..i + 1][..i] == ids[..i];
    var k := PurgeKeys(ids[..i]);
    assert PurgeKeys(ids[..i + 1]) == k + [SessionKey(ids[i]), GraceKey(ids[i])];
  }

  lemma NoPurge()
    ensures DelAll(PurgeKeys([])) == []
  {
  }

  lemma NextEviction(drop: seq<SessionId>, i: nat, c: Clock)
    requires i < |drop| && NoDup(drop)
    ensures EvictMap(drop[..i + 1], c) == EvictMap(drop[..i], c)[drop[i] := EvictTime(c, i)]
    ensures drop[i] !in EvictMap(drop[..i], c)
  {
    assert drop[..i + 1][..i] == drop[..i];
    EvictMapKeys(drop[..i], c);
  }

  // ---- Users -------------------------------------------------------------------------------

  /** A listing to stand for the query of a request that turns out not to make it. */
  lemma SomeListing(t: Tables, q: Request, c: Clock) returns (active: seq<SessionId>)
    ensures Queried(t, q, c).Some? ==> IsActiveList(active, t, Queried(t, q, c).value, c.query)
  {
    hide Queried;
    if Queried(t, q, c).Some? {
      active := ListingExists(t, ActiveSet(t, Queried(t, q, c).value, c.query));
    } else {
      active := [];
    }
  }

  class AuthSessionRevoker {
    const b: Backend
    const repo: AuthRepository

    constructor (b: Backend)
      ensures this.b == b && this.repo.db == b.db
    {
      this.b := b;
      this.repo := new AuthRepository(b.db);
    }

    /** Revokes every row and purges the cache; the caller commits. */
    method RevokeUserSessions(u: UserId, c: Clock) returns (ghost active: seq<SessionId>)
      requires repo.db == b.db && b.Valid()
      requires b.db.pending.revoke == map[] && b.db.pending.insert == map[]
      modifies b`effects, b.db, b.cache, b.cache.server
      ensures b.Valid() && b.db.committed == old(b.db.committed)
      ensures IsActiveList(active, b.db.committed, u, c.query)
      ensures b.db.pending == old(b.db.pending).(revoke := RevokeAll(b.db.committed, u, c.revoke))
      ensures b.effects == old(b.effects) + DelAll(PurgeKeys(active))
    {
      hide Play, Below, View, ClientOk, IsActiveList, PurgeKeys, RevokeAll, DelAll;
      var sessions := repo.GetActiveSessionsForUser(u, c.query);
      active := sessions;
      repo.RevokeAllSessions(u, c.revoke);
      SameListing(old(b.db.Working()), b.db.committed, active, u, c.query);
      BelowSame(b.Stores(), old(b.Stores()));
      var i := 0;
      NoPurge();
      assert sessions[..0] == [] && b.effects == old(b.effects) + [];
      while i < |sessions|
        invariant 0 <= i <= |sessions|
        invariant b.Valid() && b.db.committed == old(b.db.committed)
        invariant b.db.pending == old(b.db.pending).(revoke := RevokeAll(b.db.committed, u, c.revoke))
        invariant b.effects == old(b.effects) + DelAll(PurgeKeys(sessions[..i]))
      {
        NextPurge(sessions, i);
        b.CacheDelete(SessionKey(sessions[i]), c.revoke);
        b.CacheDelete(GraceKey(sessions[i]), c.revoke);
        i := i + 1;
      }
      assert sessions[..i] == sessions;
    }
  }

  /** Flushed user writes do not show in the query for sessions. */
  lemma SameListing(t: Tables, t': Tables, active: seq<SessionId>, u: UserId, now: Time)
    requires t.sessions == t'.sessions && IsActiveList(active, t, u, now)
    ensures IsActiveList(active, t', u, now)
  {
    assert ActiveSet(t, u, now) == ActiveSet(t', u, now);
  }

  lemma BelowSame(a: World, b: World)
    ensures a == b ==> Below(a, b)
  {
  }

  /** The protocol's answer to a status change or a deletion, one branch at a time. */
  lemma LockoutServes(start: World, q: Request, write: UserWrite, active: seq<SessionId>, c: Clock, effects: seq<Effect>, r: Result)
    requires (q.DeleteUser? && write == SetDeleted(c.check)) || (q.ChangeStatus? && write == SetStatus(q.status))
    requires IsActiveList(active, start.tables, q.id, c.query)
    requires
      if !Visible(start.tables, q.id) then effects == [] && r == Rejected(UserNotFound)
      else if q.ChangeStatus? && !MayTransition(start.tables.users[q.id].status, q.status) then
        effects == [] && r == Rejected(InvalidTransition)
      else
        && r == Done
        && effects == (if q.ChangeStatus? && !IsLockout(q.status) then [Effect.Commit(Delta(Change(q.id, write), map[], map[]))]
                       else DelAll(PurgeKeys(active))
                            + [Effect.Commit(Delta(Change(q.id, write), RevokeAll(start.tables, q.id, c.revoke), map[]))])
                      + [Del(UserKey(q.id))]
    ensures Serves(start, effects, q, c, Reads(map[], active), r)
  {
    hide PurgeKeys, RevokeAll, IsActiveList, LockoutPlan;
    LockoutPlanSplit(q.id, write, RevokeAll(start.tables, q.id, c.revoke), active);
  }

  /** The protocol's answer to a registration, one branch at a time. */
  lemma CreateServes(start: World, id: UserId, email: string, username: string, name: string, password: string, c: Clock,
                     effects: seq<Effect>, r: Result)
    requires
      if NameConflict(start.tables, email, username).Some? then
        effects == [] && r == Rejected(NameConflict(start.tables, email, username).value)
      else if !NamesFree(start.tables, email, username, id) then effects == [] && r == Rejected(ConstraintViolated)
      else effects == [CommitWrite(id, Create(NewUser(email, username, name, password)))] && r == Done
    ensures Serves(start, effects, Request.CreateUser(id, email, username, name, password), c, Reads(map[], []), r)
  {
    hide NamesFree, NameConflict;
  }

  /** The protocol's answer to a profile update, one branch at a time. */
  lemma UpdateServes(start: World, id: UserId, newEmail: Option<string>, newUsername: Option<string>, c: Clock,
                     effects: seq<Effect>, r: Result)
    requires
      if !Visible(start.tables, id) then effects == [] && r == Rejected(UserNotFound)
      else if newEmail.Some? && EmailTakenFrom(start.tables, newEmail.value, id) then effects == [] && r == Rejected(EmailTaken)
      else if newUsername.Some? && UsernameTakenFrom(start.tables, newUsername.value, id) then
        effects == [] && r == Rejected(UsernameTaken)
      else if newEmail.None? && newUsername.None? then effects == [] && r == Done
      else if !NamesFree(start.tables, newEmail.GetOr(start.tables.users[id].email),
                         newUsername.GetOr(start.tables.users[id].username), id) then
        effects == [] && r == Rejected(ConstraintViolated)
      else r == Done && effects == [CommitWrite(id, SetProfile(newEmail, newUsername))] + [Del(UserKey(id))]
    ensures Serves(start, effects, Request.UpdateUser(id, newEmail, newUsername), c, Reads(map[], []), r)
  {
    hide NamesFree, EmailTakenFrom, UsernameTakenFrom, Option<string>.GetOr;
  }

  /** The one user the query for either name found decides which name is reported. */
  lemma Found(t: Tables, email: string, username: string, u: UserId)
    requires UniqueNames(t) && u in t.users
    requires FindByEmail(t, email) == Some(u) || FindByUsername(t, username) == Some(u)
    requires !(FindByEmail(t, email).Some? && FindByUsername(t, username).Some? && FindByEmail(t, email) != FindByUsername(t, username))
    ensures NameConflict(t, email, username) == Some(if t.users[u].email == email then EmailTaken else UsernameTaken)
  {
    assert Visible(t, u);
    assert HasEmail(t, u, email) <==> t.users[u].email == email;
  }

  /** The six edges of the status machine. */
  lemma Edges(from: Status, to: Status)
    ensures MayTransition(from, to) <==>
      || to == from
      || (from == PendingVerification && (to == Active || to == Banned))
      || (from == Active && (to == Suspended || to == Banned))
      || (from == Suspended && (to == Active || to == Banned))
  {
  }

  class UserService {
    const b: Backend
    const repo: UserRepository
    const revoker: AuthSessionRevoker

    ghost predicate Wired() {
      repo.db == b.db && revoker.b == b && revoker.repo.db == b.db
    }

    constructor (b: Backend)
      ensures this.b == b && Wired()
    {
      this.b := b;
      this.repo := new UserRepository(b.db);
      this.revoker := new AuthSessionRevoker(b);
    }

    method CreateUser(id: UserId, email: string, username: string, name: string, password: string, c: Clock)
      returns (r: Result, ghost seen: Reads)
      requires Wired() && b.Fresh() && id !in b.db.committed.users
      modifies b`effects, b.db, b.cache, b.cache.server
      ensures b.Valid() && b.db.pending == EMPTY_DELTA
      ensures Serves(b.start, b.effects, Request.CreateUser(id, email, username, name, password), c, seen, r)
    {
      hide Play, Below, View, ClientOk, Serves, NamesFree, ApplyDelta, FindByEmail, FindByUsername;
      seen := Reads(map[], []);
      var existing, several := repo.GetByEmailOrUsername(email, username);
      if several {
        r := Rejected(SeveralUsersFound);
      } else if existing != null {
        r := Rejected(if existing.email == email then EmailTaken else UsernameTaken);
        Found(b.start.tables, email, username, existing.id);
      } else {
        var f := repo.Create(id, User(email, username, name, HashOf(password), Active, Member, None));
        if f == Violated {
          r := Rejected(ConstraintViolated);
        } else {
          b.Commit();
          r := Done;
        }
      }
      CreateServes(b.start, id, email, username, name, password, c, b.effects, r);
    }

    method UpdateUser(id: UserId, newEmail: Option<string>, newUsername: Option<string>, c: Clock)
      returns (r: Result, ghost seen: Reads)
      requires Wired() && b.Fresh()
      modifies b`effects, b.db, b.cache, b.cache.server
      ensures b.Valid() && b.db.pending == EMPTY_DELTA
      ensures Serves(b.start, b.effects, Request.UpdateUser(id, newEmail, newUsername), c, seen, r)
    {
      hide Play, Below, View, ClientOk, Serves, NamesFree, ApplyDelta, FindByEmail, FindByUsername, EmailTakenFrom, UsernameTakenFrom, UniqueNames;
      seen := Reads(map[], []);
      r := Done;
      var user := repo.GetById(id);
      if user == null {
        r := Rejected(UserNotFound);
      } else {
        var taken := NameTaken(id, newEmail, newUsername);
        if taken.Some? {
          r := Rejected(taken.value);
        } else if newEmail.Some? || newUsername.Some? {
          var f := repo.Update(id, SetProfile(newEmail, newUsername));
          if f == Violated {
            r := Rejected(ConstraintViolated);
          } else {
            b.Commit();
            b.CacheDelete(UserKey(id), c.end);
          }
        }
      }
      UpdateServes(b.start, id, newEmail, newUsername, c, b.effects, r);
    }

    /** Looks each given name up, the email first. */
    method NameTaken(id: UserId, newEmail: Option<string>, newUsername: Option<string>) returns (taken: Option<Reason>)
      requires UniqueNames(repo.db.Working())
      ensures taken ==
        if newEmail.Some? && EmailTakenFrom(repo.db.Working(), newEmail.value, id) then Some(EmailTaken)
        else if newUsername.Some? && UsernameTakenFrom(repo.db.Working(), newUsername.value, id) then Some(UsernameTaken)
        else None
    {
      hide Database.Working, FindByEmail, FindByUsername, UniqueNames;
      if newEmail.Some? {
        var existing := repo.GetByEmail(newEmail.value);
        if existing != null && existing.id != id {
          return Some(EmailTaken);
        }
      }
      if newUsername.Some? {
        var existing := repo.GetByUsername(newUsername.value);
        if existing != null && existing.id != id {
          return Some(UsernameTaken);
        }
      }
      taken := None;
    }

    method SetPassword(id: UserId, password: string, c: Clock) returns (r: Result, ghost seen: Reads)
      requires Wired() && b.Fresh()
      modifies b`effects, b.db, b.cache, b.cache.server
      ensures b.Valid() && b.db.pending == EMPTY_DELTA
      ensures Serves(b.start, b.effects, SetUserPassword(id, password), c, seen, r)
    {
      hide Play, Below, View, ClientOk, ApplyDelta;
      seen := Reads(map[], []);
      var user := repo.GetById(id);
      if user == null {
        return Rejected(UserNotFound), seen;
      }
      var f := repo.SetCredentials(id, HashOf(password));
      assert f == Flushed;
      b.Commit();
      b.CacheDelete(UserKey(id), c.end);
      r := Done;
    }

    /** The transition is decided on the entity before anything is written. */
    method ChangeStatus(id: UserId, status: Status, c: Clock) returns (r: Result, ghost seen: Reads)
      requires Wired() && b.Fresh()
      modifies b`effects, b.db, b.cache, b.cache.server
      ensures b.Valid() && b.db.pending == EMPTY_DELTA
      ensures Serves(b.start, b.effects, Request.ChangeStatus(id, status), c, seen, r)
    {
      hide Play, Below, View, ClientOk, Serves, PurgeKeys, RevokeAll, DelAll, IsActiveList, ApplyDelta, MayTransition;
      ghost var q, write := Request.ChangeStatus(id, status), SetStatus(status);
      ghost var active := SomeListing(b.start.tables, q, c);
      seen := Reads(map[], active);
      assert IsActiveList(active, b.start.tables, id, c.query);
      var user := repo.GetById(id);
      if user == null {
        LockoutServes(b.start, q, write, active, c, b.effects, Rejected(UserNotFound));
        return Rejected(UserNotFound), seen;
      }
      Edges(b.db.committed.users[id].status, status);
      var ok := user.TransitionTo(status);
      if !ok {
        LockoutServes(b.start, q, write, active, c, b.effects, Rejected(InvalidTransition));
        return Rejected(InvalidTransition), seen;
      }
      ghost var listed := WriteStatus(id, user.status, c);
      if IsLockout(status) {
        active := listed;
        seen := Reads(map[], active);
      }
      LockoutServes(b.start, q, write, active, c, b.effects, Done);
      r := Done;
    }

    /** A lockout revokes in the transaction of the status, and purges before it commits. */
    method WriteStatus(id: UserId, status: Status, c: Clock) returns (ghost active: seq<SessionId>)
      requires Wired() && b.Valid() && b.db.pending == EMPTY_DELTA && id in b.db.committed.users
      modifies b`effects, b.db, b.cache, b.cache.server
      ensures b.Valid() && b.db.pending == EMPTY_DELTA
      ensures IsLockout(status) ==> IsActiveList(active, old(b.db.committed), id, c.query)
      ensures b.effects == old(b.effects)
        + (if !IsLockout(status) then [Effect.Commit(Delta(Change(id, SetStatus(status)), map[], map[]))]
           else DelAll(PurgeKeys(active))
                + [Effect.Commit(Delta(Change(id, SetStatus(status)), RevokeAll(old(b.db.committed), id, c.revoke), map[]))])
        + [Del(UserKey(id))]
    {
      hide Play, Below, View, ClientOk, PurgeKeys, RevokeAll, DelAll, IsActiveList, ApplyDelta;
      active := [];
      var f := repo.SetStatus(id, status);
      assert f == Flushed;
      if IsLockout(status) {
        active := revoker.RevokeUserSessions(id, c);
      }
      b.Commit();
      b.CacheDelete(UserKey(id), c.end);
    }

    method DeleteUser(id: UserId, c: Clock) returns (r: Result, ghost seen: Reads)
      requires Wired() && b.Fresh()
      modifies b`effects, b.db, b.cache, b.cache.server
      ensures b.Valid() && b.db.pending == EMPTY_DELTA
      ensures Serves(b.start, b.effects, Request.DeleteUser(id), c, seen, r)
    {
      hide Play, Below, View, ClientOk, Serves, PurgeKeys, RevokeAll, DelAll, IsActiveList, ApplyDelta;
      ghost var q, write := Request.DeleteUser(id), SetDeleted(c.check);
      ghost var active := SomeListing(b.start.tables, q, c);
      seen := Reads(map[], active);
      assert IsActiveList(active, b.start.tables, id, c.query);
      var user := repo.GetById(id);
      if user == null {
        LockoutServes(b.start, q, write, active, c, b.effects, Rejected(UserNotFound));
        return Rejected(UserNotFound), seen;
      }
      var ok := user.Deactivate(c.check);
      assert ok;
      var f := repo.Update(id, SetDeleted(user.deletedAt.value));
      assert f == Flushed;
      active := revoker.RevokeUserSessions(id, c);
      seen := Reads(map[], active);
      b.Commit();
      b.CacheDelete(UserKey(id), c.end);
      LockoutServes(b.start, q, write, active, c, b.effects, Done);
      r := Done;
    }
  }
}
