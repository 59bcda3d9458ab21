/** One request's database session, the repositories over it, and the collaborators a request shares. */
module Databases {
  import opened Types
  import opened Tokens
  import opened Store
  import opened Protocol
  import opened Invariants
  import opened Entities
  import opened CacheClients

  /** Flushed writes stay in `pending` until a commit publishes them at once. */
  class Database {
    var committed: Tables
    var pending: Delta

    /** What the transaction itself reads: the committed rows under its own flushed writes. */
    function Working(): (t: Tables)
      reads this
      ensures pending.change == NoChange ==> t.users == committed.users
      ensures pending.revoke == map[] && pending.insert == map[] ==> t.sessions == committed.sessions
      ensures t.sessions.Keys == committed.sessions.Keys + pending.insert.Keys
    {
      ApplyDelta(committed, pending)
    }

    constructor (committed: Tables)
      ensures this.committed == committed && pending == EMPTY_DELTA
    {
      this.committed := committed;
      pending := EMPTY_DELTA;
    }

    method Commit()
      modifies this
      ensures committed == old(Working()) && pending == EMPTY_DELTA
    {
      committed := ApplyDelta(committed, pending);
      pending := EMPTY_DELTA;
    }
  }

  // ---- Flushing -----------------------------------------------------------------------------

  /** The pending transaction after merging a row: unchanged rows are not written, revocations alone are updates. */
  function Merged(t: Tables, d: Delta, s: SessionId, row: Session): Delta {
    var now := ApplyDelta(t, d).sessions;
    if s in now && now[s] == row then d
    else if s in t.sessions && s !in d.insert && row.revokedAt.Some? && row == t.sessions[s].(revokedAt := row.revokedAt)
    then d.(revoke := d.revoke[s := row.revokedAt.value])
    else d.(insert := d.insert[s := row])
  }

  /** The transaction then reads the merged row, and every other row as before. */
  lemma MergedReads(t: Tables, d: Delta, s: SessionId, row: Session)
    ensures ApplyDelta(t, Merged(t, d, s, row)) == ApplyDelta(t, d).(sessions := ApplyDelta(t, d).sessions[s := row])
  {
    assert ApplyDelta(t, Merged(t, d, s, row)).sessions == ApplyDelta(t, d).sessions[s := row];
  }

  /** Merging a committed row's first revocation is one more revocation; merging it unchanged is nothing. */
  lemma MergedRevocation(t: Tables, d: Delta, s: SessionId, at: Time)
    requires s in t.sessions && s !in d.insert && s !in d.revoke
    ensures t.sessions[s].revokedAt.None? ==>
              Merged(t, d, s, t.sessions[s].(revokedAt := Some(at))) == d.(revoke := d.revoke[s := at])
    ensures Merged(t, d, s, t.sessions[s]) == d
  {
  }

  function RevokedRows(rows: map<SessionId, Session>, revoke: map<SessionId, Time>): (revoked: map<SessionId, Session>)
    ensures revoked.Keys == rows.Keys && forall s | s in rows :: revoked[s] == RevokedRow(rows[s], s, revoke)
  {
    map s | s in rows :: RevokedRow(rows[s], s, revoke)
  }

  /** The pending transaction after revoking rows it reads, its own inserts included. */
  function Revoking(d: Delta, revoke: map<SessionId, Time>): Delta {
    Delta(d.change, d.revoke + revoke, RevokedRows(d.insert, revoke))
  }

  /** Revoking within a transaction is revoking what it reads. */
  lemma RevokingReads(t: Tables, d: Delta, revoke: map<SessionId, Time>)
    ensures ApplyDelta(t, Revoking(d, revoke)) == ApplyDelta(ApplyDelta(t, d), Delta(NoChange, revoke, map[]))
  {
    assert ApplyDelta(t, Revoking(d, revoke)).sessions == ApplyDelta(ApplyDelta(t, d), Delta(NoChange, revoke, map[])).sessions;
  }

  /** The rows to revoke, expired ones included. */
  function Unrevoked(t: Tables, u: UserId): set<SessionId> {
    set s | s in t.sessions && t.sessions[s].userId == u && t.sessions[s].revokedAt.None?
  }

  lemma RevokesEach(t: Tables, u: UserId, now: Time, done: map<SessionId, Time>)
    requires done.Keys == Unrevoked(t, u) && forall s | s in done :: done[s] == now
    ensures done == RevokeAll(t, u, now)
  {
  }

  lemma SameRevocations(t: Tables, t': Tables, u: UserId, now: Time)
    ensures t.sessions == t'.sessions ==> RevokeAll(t, u, now) == RevokeAll(t', u, now)
  {
  }

  lemma RevokedTwice(row: Session, n: SessionId, revoke: map<SessionId, Time>, s: SessionId, at: Time)
    ensures RevokedRow(RevokedRow(row, n, revoke), n, map[s := at]) == RevokedRow(row, n, revoke[s := at])
  {
  }

  lemma RevokingOne(d: Delta, revoke: map<SessionId, Time>, s: SessionId, at: Time)
    ensures Revoking(Revoking(d, revoke), map[s := at]) == Revoking(d, revoke[s := at])
  {
    hide RevokedRow, RevokedRows;
    var twice, once := RevokedRows(RevokedRows(d.insert, revoke), map[s := at]), RevokedRows(d.insert, revoke[s := at]);
    forall n | n in d.insert ensures twice[n] == once[n] {
      RevokedTwice(d.insert[n], n, revoke, s, at);
    }
    assert twice == once;
    assert d.revoke + revoke + map[s := at] == d.revoke + revoke[s := at];
  }

  lemma RevokingFirst(d: Delta, revoke: map<SessionId, Time>)
    ensures Revoking(d, map[]) == d
    ensures d.revoke == map[] && d.insert == map[] ==> Revoking(d, revoke) == d.(revoke := revoke)
  {
  }

  // ---- Listing active sessions ------------------------------------------------------------

  lemma {:induction false} OldestExists(t: Tables, ids: set<SessionId>) returns (first: SessionId)
    requires ids != {} && forall s | s in ids :: s in t.sessions
    ensures first in ids && forall s | s in ids :: t.sessions[first].createdAt <= t.sessions[s].createdAt
  {
    first :| first in ids;
    if ids != {first} {
      assert ids == {first} + (ids - {first});
      var rest := OldestExists(t, ids - {first});
      if t.sessions[rest].createdAt < t.sessions[first].createdAt {
        first := rest;
      }
    }
  }

  /** Every finite set of sessions has an oldest-first listing. */
  lemma {:induction false} ListingExists(t: Tables, ids: set<SessionId>) returns (l: seq<SessionId>)
    requires forall s | s in ids :: s in t.sessions
    ensures NoDup(l) && OldestFirst(l, t) && forall s :: s in l <==> s in ids
  {
    if ids == {} {
      l := [];
    } else {
      var first := OldestExists(t, ids);
      var rest := ListingExists(t, ids - {first});
      l := [first] + rest;
    }
  }

  class AuthRepository {
    const db: Database

    constructor (db: Database)
      ensures this.db == db
    {
      this.db := db;
    }

    method GetSessionById(id: SessionId) returns (s: UserSession?)
      ensures s == null <==> id !in db.Working().sessions
      ensures s != null ==> fresh(s) && s.id == id && s.Row() == db.Working().sessions[id]
    {
      if id !in db.Working().sessions {
        return null;
      }
      s := new UserSession(id, db.Working().sessions[id]);
    }

    /** Maps a row the query returned to its entity. */
    method ToSessionEntity(id: SessionId) returns (s: UserSession)
      requires id in db.Working().sessions
      ensures fresh(s) && s.id == id && s.Row() == db.Working().sessions[id]
    {
      s := new UserSession(id, db.Working().sessions[id]);
    }

    /** Ties on the creation time are resolved by the database as it likes. */
    method GetActiveSessionsForUser(u: UserId, now: Time) returns (l: seq<SessionId>)
      ensures IsActiveList(l, db.Working(), u, now)
    {
      ghost var listing := ListingExists(db.Working(), ActiveSet(db.Working(), u, now));
      assert IsActiveList(listing, db.Working(), u, now);
      l :| IsActiveList(l, db.Working(), u, now);
    }

    /** Merges the entity into the table, whatever the transaction has written before. */
    method UpdateSession(s: UserSession)
      modifies db
      ensures db.committed == old(db.committed)
      ensures db.pending == Merged(old(db.committed), old(db.pending), s.id, s.Row())
      ensures db.Working() == old(db.Working()).(sessions := old(db.Working()).sessions[s.id := s.Row()])
    {
      MergedReads(db.committed, db.pending, s.id, s.Row());
      var row := Session(s.userId, s.expiresAt, s.createdAt, s.revokedAt, s.previous, s.device, s.ip);
      db.pending := Merged(db.committed, db.pending, s.id, row);
    }

    /** Every row the query returns is dated alike, expired rows included. */
    method RevokeAllSessions(u: UserId, now: Time)
      modifies db
      ensures db.committed == old(db.committed)
      ensures db.Working() == ApplyDelta(old(db.Working()), Delta(NoChange, RevokeAll(old(db.Working()), u, now), map[]))
      ensures old(db.pending).revoke == map[] && old(db.pending).insert == map[] ==>
                db.pending == old(db.pending).(revoke := RevokeAll(db.committed, u, now))
    {
      hide Revoking, RevokeAll, ApplyDelta;
      ghost var start := db.pending;
      var t := db.Working();
      var models := Unrevoked(t, u);
      var left := models;
      ghost var done: map<SessionId, Time> := map[];
      RevokingFirst(start, RevokeAll(t, u, now));
      while left != {}
        invariant left <= models && done.Keys == models - left && forall s | s in done :: done[s] == now
        invariant db.committed == old(db.committed)
        invariant db.pending == Revoking(start, done)
      {
        var s :| s in left;
        RevokingOne(start, done, s, now);
        db.pending := Revoking(db.pending, map[s := now]);
        done := done[s := now];
        left := left - {s};
      }
      RevokesEach(t, u, now, done);
      SameRevocations(t, db.committed, u, now);
      RevokingReads(db.committed, start, done);
    }

    /** Adds the row; a second row with its id violates the primary key. */
    method CreateSession(s: UserSession) returns (ok: bool)
      modifies db
      ensures db.committed == old(db.committed)
      ensures ok <==> s.id !in old(db.Working()).sessions
      ensures db.pending == if ok then old(db.pending).(insert := old(db.pending).insert[s.id := s.Row()]) else old(db.pending)
    {
      ok := s.id !in db.Working().sessions;
      if ok {
        var row := Session(s.userId, s.expiresAt, s.createdAt, s.revokedAt, s.previous, s.device, s.ip);
        db.pending := db.pending.(insert := db.pending.insert[s.id := row]);
      }
    }
  }

  /** What comes of a flushed write to a user. */
  datatype Flush = Flushed | Forbidden | NoSuchRow | Violated

  class UserRepository {
    const db: Database

    constructor (db: Database)
      ensures this.db == db
    {
      this.db := db;
    }

    method GetById(u: UserId) returns (user: UserEntity?)
      ensures user == null <==> !Visible(db.Working(), u)
      ensures user != null ==> fresh(user) && user.id == u && user.Row() == db.Working().users[u]
    {
      var t := db.Working();
      if u !in t.users || t.users[u].deletedAt.Some? {
        return null;
      }
      user := new UserEntity(u, t.users[u]);
    }

    /** The unique index on `email` makes the answer the only one. */
    method GetByEmail(email: string) returns (user: UserEntity?)
      requires UniqueNames(db.Working())
      ensures user == null <==> FindByEmail(db.Working(), email).None?
      ensures user != null ==> && fresh(user) && FindByEmail(db.Working(), email) == Some(user.id)
                               && user.Row() == db.Working().users[user.id]
    {
      var t := db.Working();
      var found := set u | u in t.users && t.users[u].deletedAt.None? && t.users[u].email == email;
      if found == {} {
        assert forall u :: Visible(t, u) && HasEmail(t, u, email) ==> u in found;
        return null;
      }
      var u :| u in found;
      assert Visible(t, u) && HasEmail(t, u, email);
      user := new UserEntity(u, t.users[u]);
    }

    /** The unique index on `username` makes the answer the only one. */
    method GetByUsername(username: string) returns (user: UserEntity?)
      requires UniqueNames(db.Working())
      ensures user == null <==> FindByUsername(db.Working(), username).None?
      ensures user != null ==> && fresh(user) && FindByUsername(db.Working(), username) == Some(user.id)
                               && user.Row() == db.Working().users[user.id]
    {
      var t := db.Working();
      var found := set u | u in t.users && t.users[u].deletedAt.None? && t.users[u].username == username;
      if found == {} {
        assert forall u :: Visible(t, u) && HasUsername(t, u, username) ==> u in found;
        return null;
      }
      var u :| u in found;
      assert Visible(t, u) && HasUsername(t, u, username);
      user := new UserEntity(u, t.users[u]);
    }

    /** One query for either name: it may find one user by the email and another by the username. */
    method GetByEmailOrUsername(email: string, username: string) returns (user: UserEntity?, several: bool)
      requires UniqueNames(db.Working())
      ensures several <==> && FindByEmail(db.Working(), email).Some? && FindByUsername(db.Working(), username).Some?
                           && FindByEmail(db.Working(), email) != FindByUsername(db.Working(), username)
      ensures !several ==>
        && (user == null <==> FindByEmail(db.Working(), email).None? && FindByUsername(db.Working(), username).None?)
        && (user != null ==> && fresh(user) && user.id in db.Working().users && user.Row() == db.Working().users[user.id]
                             && (FindByEmail(db.Working(), email) == Some(user.id) || FindByUsername(db.Working(), username) == Some(user.id)))
    {
      user := GetByEmail(email);
      var other := GetByUsername(username);
      several := user != null && other != null && user.id != other.id;
      if user == null {
        user := other;
      }
    }

    method Create(u: UserId, row: User) returns (f: Flush)
      requires db.pending.change == NoChange
      modifies db
      ensures db.committed == old(db.committed)
      ensures f == if u in old(db.Working()).users || !NamesFree(old(db.Working()), row.email, row.username, u) then Violated else Flushed
      ensures db.pending == if f == Flushed then old(db.pending).(change := Change(u, UserWrite.Create(row))) else old(db.pending)
    {
      var t := db.Working();
      var free := NamesAvailable(row.email, row.username, u);
      if u in t.users || !free {
        return Violated;
      }
      db.pending := db.pending.(change := Change(u, UserWrite.Create(row)));
      return Flushed;
    }

    /** The database refuses a second row with the same email or username, deleted or not. */
    method NamesAvailable(email: string, username: string, u: UserId) returns (free: bool)
      ensures free <==> NamesFree(db.Working(), email, username, u)
    {
      var t := db.Working();
      free := forall v | v in t.users && v != u :: t.users[v].email != email && t.users[v].username != username;
    }

    /** Profile columns only: the credential, the status and whole rows are not for this method. */
    method Update(u: UserId, write: UserWrite) returns (f: Flush)
      requires db.pending.change == NoChange
      modifies db
      ensures db.committed == old(db.committed)
      ensures f == Forbidden <==> !write.SetProfile? && !write.SetDeleted?
      ensures f == NoSuchRow <==> (write.SetProfile? || write.SetDeleted?) && u !in old(db.Working()).users
      ensures f == Violated <==>
        && write.SetProfile? && u in old(db.Working()).users
        && var row := old(db.Working()).users[u];
           !NamesFree(old(db.Working()), write.email.GetOr(row.email), write.username.GetOr(row.username), u)
      ensures db.pending == if f == Flushed then old(db.pending).(change := Change(u, write)) else old(db.pending)
    {
      if !write.SetProfile? && !write.SetDeleted? {
        return Forbidden;
      }
      var t := db.Working();
      if u !in t.users {
        return NoSuchRow;
      }
      if write.SetProfile? {
        var free := NamesAvailable(write.email.GetOr(t.users[u].email), write.username.GetOr(t.users[u].username), u);
        if !free {
          return Violated;
        }
      }
      db.pending := db.pending.(change := Change(u, write));
      return Flushed;
    }

    method SetStatus(u: UserId, status: Status) returns (f: Flush)
      requires db.pending.change == NoChange
      modifies db
      ensures db.committed == old(db.committed) && f == if u in old(db.Working()).users then Flushed else NoSuchRow
      ensures db.pending == if f == Flushed then old(db.pending).(change := Change(u, UserWrite.SetStatus(status))) else old(db.pending)
    {
      if u !in db.Working().users {
        return NoSuchRow;
      }
      db.pending := db.pending.(change := Change(u, UserWrite.SetStatus(status)));
      return Flushed;
    }

    method SetCredentials(u: UserId, hashed: Hash) returns (f: Flush)
      requires db.pending.change == NoChange
      modifies db
      ensures db.committed == old(db.committed) && f == if u in old(db.Working()).users then Flushed else NoSuchRow
      ensures db.pending == if f == Flushed then old(db.pending).(change := Change(u, SetPassword(hashed))) else old(db.pending)
    {
      if u !in db.Working().users {
        return NoSuchRow;
      }
      db.pending := db.pending.(change := Change(u, SetPassword(hashed)));
      return Flushed;
    }
  }

  /**
   * What the collaborators of one request share: the database session, the
   * cache client, and the journal of effects so far. Its invariant is that the
   * stores are what playing the journal yields, save for lost cache entries.
   */
  class Backend {
    const db: Database
    const cache: CacheClient
    const loop: nat
    ghost var issued: map<SessionId, TokenPair>
    ghost var start: World
    ghost var effects: seq<Effect>

    ghost function Stores(): World
      reads this, db, cache, cache.server
    {
      World(db.committed, View(cache.State()), issued)
    }

    ghost predicate Valid()
      reads this, db, cache, cache.server
    {
      && cache.Valid() && ClientOk(cache.State()) && (cache.initialized ==> cache.loop == loop)
      && Below(Stores(), Play(start, effects))
    }

    /** A request begins with nothing pending and an empty journal. */
    ghost predicate Fresh()
      reads this, db, cache, cache.server
    {
      Valid() && db.pending == EMPTY_DELTA && effects == [] && start == Stores() && UniqueNames(db.committed)
    }

    constructor (db: Database, cache: CacheClient, loop: nat)
      requires cache.Valid() && ClientOk(cache.State()) && (cache.initialized ==> cache.loop == loop)
      ensures this.db == db && this.cache == cache && this.loop == loop && Valid()
      ensures effects == [] && start == Stores() && issued == map[]
    {
      this.db := db;
      this.cache := cache;
      this.loop := loop;
      issued := map[];
      effects := [];
      start := World(db.committed, View(cache.State()), map[]);
    }

    ghost method Begin()
      requires Valid() && db.pending == EMPTY_DELTA && UniqueNames(db.committed)
      modifies this
      ensures Fresh() && Stores() == old(Stores())
    {
      start := Stores();
      effects := [];
    }

    /** The network, and what Redis has dropped, are beyond the program's control. */
    method Network(now: Time) returns (net: Net)
      requires Valid()
      modifies cache.server
      ensures Valid() && net.loop == loop && net.now == now
      ensures Submap(View(cache.State()), old(View(cache.State())))
      ensures cache.State() == old(cache.State()).(server := cache.server.store)
    {
      var lost: set<Key> := *;
      var pingFails: bool := *;
      var fails: bool := *;
      cache.server.Evict(lost);
      BelowTransitive(Stores(), old(Stores()), Play(start, effects));
      net := Net(loop, now, pingFails, fails);
    }

    /** A lookup: `seen` is the part of the cache it found. */
    method CacheGet(key: Key, now: Time) returns (r: Option<Value>, ghost seen: Cache)
      requires Valid()
      modifies cache, cache.server
      ensures Valid()
      ensures Submap(seen, old(View(cache.State()))) && seen.Keys <= {key}
      ensures r == Read(seen, key, now)
    {
      var net := Network(now);
      ghost var was := cache.State();
      r := cache.Get(key, net);
      GetRefines(was, key, net);
      seen := if r.Some? then map[key := View(was)[key]] else map[];
      BelowTransitive(Stores(), old(Stores()), Play(start, effects));
    }

    method CacheSet(key: Key, value: Value, ttl: Option<nat>, now: Time)
      requires Valid()
      modifies this`effects, cache, cache.server
      ensures Valid() && effects == old(effects) + [Put(key, EntryFor(value, ttl, now))]
    {
      var net := Network(now);
      ghost var was, e := cache.State(), Put(key, EntryFor(value, ttl, now));
      cache.Set(key, value, ttl, net);
      SetRefines(was, key, value, ttl, net);
      effects := effects + [e];
      Journal(old(Stores()), Stores(), start, old(effects), e);
    }

    method CacheDelete(key: Key, now: Time)
      requires Valid()
      modifies this`effects, cache, cache.server
      ensures Valid() && effects == old(effects) + [Del(key)]
    {
      var net := Network(now);
      ghost var was := cache.State();
      cache.Delete(key, net);
      DeleteRefines(was, key, net);
      effects := effects + [Del(key)];
      Journal(old(Stores()), Stores(), start, old(effects), Del(key));
    }

    method Commit()
      requires Valid()
      modifies this`effects, db
      ensures Valid() && effects == old(effects) + [Effect.Commit(old(db.pending))] && db.pending == EMPTY_DELTA
      ensures db.committed == ApplyDelta(old(db.committed), old(db.pending))
    {
      ghost var e := Effect.Commit(db.pending);
      db.Commit();
      effects := effects + [e];
      Journal(old(Stores()), Stores(), start, old(effects), e);
    }

    /** Notes the pair that a client may hold from here on. */
    ghost method Record(n: SessionId, pair: TokenPair)
      requires Valid()
      modifies this`effects, this`issued
      ensures Valid() && effects == old(effects) + [Issue(n, pair)]
    {
      issued := issued[n := pair];
      effects := effects + [Issue(n, pair)];
      Journal(old(Stores()), Stores(), start, old(effects), Issue(n, pair));
    }
  }

  /** One more effect on the stores is one more entry in the journal. */
  lemma Journal(was: World, now: World, start: World, effects: seq<Effect>, e: Effect)
    requires Below(was, Play(start, effects)) && Below(now, Apply(was, e))
    ensures Below(now, Play(start, effects + [e]))
  {
    PlaySnoc(start, effects, e);
    var p := Play(start, effects);
    assert Below(Apply(was, e), Apply(p, e));
    BelowTransitive(now, Apply(was, e), Apply(p, e));
  }
}
