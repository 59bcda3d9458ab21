/**
 * The two stores a request writes, and the writes themselves. A request is
 * described by the list of effects it has on the stores, in order: flushed but
 * uncommitted rows are not effects, since an abort discards them.
 */
module Store {
  import opened Types
  import opened Tokens

  datatype Key = SessionKey(session: SessionId) | GraceKey(rotated: SessionId) | UserKey(user: UserId)

  datatype Value =
    | SessionValue(validation: SessionValidation)
    | PairValue(pair: TokenPair)
    | UserValue(identity: Identity)

  datatype Entry = Entry(value: Value, expiry: Option<Time>)

  type Cache = map<Key, Entry>

  /** A TTL of zero, like no TTL, stores an entry that never expires. */
  function EntryFor(value: Value, ttl: Option<nat>, now: Time): Entry {
    Entry(value, if ttl.Some? && ttl.value != 0 then Some(now + ttl.value * SECOND) else None)
  }

  predicate Live(entry: Entry, now: Time) {
    entry.expiry.None? || now <= entry.expiry.value
  }

  function Read(cache: Cache, key: Key, now: Time): Option<Value> {
    if key in cache && Live(cache[key], now) then Some(cache[key].value) else None
  }

  // ---- Database writes -----------------------------------------------------

  datatype UserWrite =
    | Create(user: User)
    | SetStatus(status: Status)
    | SetDeleted(at: Time)
    | SetProfile(email: Option<string>, username: Option<string>)
    | SetPassword(hashed: Hash)

  datatype UserChange = NoChange | Change(id: UserId, write: UserWrite)

  /** What one transaction publishes: column writes to a user, revocations, and new sessions. */
  datatype Delta = Delta(change: UserChange, revoke: map<SessionId, Time>, insert: map<SessionId, Session>)

  const EMPTY_DELTA := Delta(NoChange, map[], map[])

  function Written(user: User, write: UserWrite): User {
    match write
    case Create(row) => row
    case SetStatus(status) => user.(status := status)
    case SetDeleted(at) => user.(deletedAt := Some(at))
    case SetProfile(email, username) =>
      user.(email := email.GetOr(user.email), username := username.GetOr(user.username))
    case SetPassword(hashed) => user.(hashed := hashed)
  }

  function ChangedUsers(users: map<UserId, User>, change: UserChange): map<UserId, User> {
    match change
    case NoChange => users
    case Change(id, Create(user)) => users[id := user]
    case Change(id, write) => if id in users then users[id := Written(users[id], write)] else users
  }

  function RevokedRow(row: Session, s: SessionId, revoke: map<SessionId, Time>): Session {
    if s in revoke then row.(revokedAt := Some(revoke[s])) else row
  }

  function ApplyDelta(t: Tables, d: Delta): Tables {
    Tables(
      ChangedUsers(t.users, d.change),
      map s | s in t.sessions.Keys + d.insert.Keys ::
        if s in d.insert then d.insert[s] else RevokedRow(t.sessions[s], s, d.revoke))
  }

  // ---- Worlds and effects --------------------------------------------------

  /** Committed tables, cache contents, and (history) the pair handed out for each session. */
  datatype World = World(tables: Tables, cache: Cache, issued: map<SessionId, TokenPair>)

  datatype Effect =
    | Put(key: Key, entry: Entry)
    | Del(gone: Key)
    | Commit(delta: Delta)
    | Issue(session: SessionId, pair: TokenPair)

  function Apply(w: World, e: Effect): World {
    match e
    case Put(key, entry) => w.(cache := w.cache[key := entry])
    case Del(key) => w.(cache := w.cache - {key})
    case Commit(delta) => w.(tables := ApplyDelta(w.tables, delta))
    case Issue(session, pair) => w.(issued := w.issued[session := pair])
  }

  function Play(w: World, es: seq<Effect>): World {
    if es == [] then w else Apply(Play(w, es[..|es| - 1]), es[|es| - 1])
  }

  ghost predicate Submap(a: Cache, b: Cache) {
    forall k | k in a :: k in b && a[k] == b[k]
  }

  /** `a` is `b` except that cache entries may have vanished. */
  ghost predicate Below(a: World, b: World) {
    a.tables == b.tables && a.issued == b.issued && Submap(a.cache, b.cache)
  }

  // ---- Effect lists --------------------------------------------------------

  function DelAll(keys: seq<Key>): seq<Effect>
  {
    seq(|keys|, i requires 0 <= i < |keys| => Del(keys[i]))
  }

  function SessionKeys(ids: seq<SessionId>): seq<Key> {
    seq(|ids|, i requires 0 <= i < |ids| => SessionKey(ids[i]))
  }

  /** The `session:` and `grace:` keys of each session in turn. */
  function PurgeKeys(ids: seq<SessionId>): seq<Key> {
    if ids == [] then []
    else PurgeKeys(ids[..|ids| - 1]) + [SessionKey(ids[|ids| - 1]), GraceKey(ids[|ids| - 1])]
  }

  lemma PurgeKeysMembers(ids: seq<SessionId>)
    ensures forall s :: SessionKey(s) in PurgeKeys(ids) <==> s in ids
    ensures forall s :: GraceKey(s) in PurgeKeys(ids) <==> s in ids
    ensures forall u :: UserKey(u) !in PurgeKeys(ids)
  {
    if ids != [] {
      PurgeKeysMembers(ids[..|ids| - 1]);
      assert ids == ids[..|ids| - 1] + [ids[|ids| - 1]];
    }
  }

  lemma SessionKeysMembers(ids: seq<SessionId>)
    ensures forall s :: SessionKey(s) in SessionKeys(ids) <==> s in ids
    ensures forall k | k in SessionKeys(ids) :: k.SessionKey?
  {
    forall s | s in ids ensures SessionKey(s) in SessionKeys(ids) {
      var i :| 0 <= i < |ids| && ids[i] == s;
      assert SessionKeys(ids)[i] == SessionKey(s);
    }
  }

  lemma PlayNext(w: World, es: seq<Effect>, k: nat)
    requires k < |es|
    ensures Play(w, es[..k + 1]) == Apply(Play(w, es[..k]), es[k])
  {
    assert es[..k + 1][..k] == es[..k];
  }

  lemma PlaySnoc(w: World, es: seq<Effect>, e: Effect)
    ensures Play(w, es + [e]) == Apply(Play(w, es), e)
  {
    assert (es + [e])[..|es|] == es;
  }

  lemma {:induction false} PlayConcat(w: World, a: seq<Effect>, b: seq<Effect>)
    ensures Play(w, a + b) == Play(Play(w, a), b)
  {
    if b == [] {
      assert a + b == a;
    } else {
      var front, last := b[..|b| - 1], b[|b| - 1];
      assert a + b == (a + front) + [last];
      PlaySnoc(w, a + front, last);
      PlayConcat(w, a, front);
    }
  }

  /** Deletions remove exactly the keys they name. */
  lemma {:induction false} PlayDels(w: World, keys: seq<Key>)
    ensures Play(w, DelAll(keys)) == w.(cache := w.cache - (set k | k in keys))
  {
    if keys == [] {
      assert w.cache - (set k | k in keys) == w.cache;
    } else {
      var front, last := keys[..|keys| - 1], keys[|keys| - 1];
      assert keys == front + [last];
      assert DelAll(keys) == DelAll(front) + [Del(last)];
      PlaySnoc(w, DelAll(front), Del(last));
      PlayDels(w, front);
      assert (set k | k in keys) == (set k | k in front) + {last};
      assert w.cache - (set k | k in keys) == (w.cache - (set k | k in front)) - {last};
    }
  }

  lemma BelowTransitive(a: World, b: World, c: World)
    requires Below(a, b) && Below(b, c)
    ensures Below(a, c)
  {
  }
}
