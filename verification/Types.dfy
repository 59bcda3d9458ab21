/** The entities of the session lifecycle: users, sessions, tokens and the clock of one request. */
module Types {

  datatype Option<+T> = None | Some(value: T)
  {
    function GetOr(default: T): T {
      if Some? then value else default
    }
  }

  datatype UserId = UserId(uuid: string)
  datatype SessionId = SessionId(uuid: string)

  /** Microseconds since the epoch, the resolution of the program's datetimes. */
  type Time = nat

  const SECOND: nat := 1_000_000
  const GRACE_SECONDS: nat := 30
  const GRACE_WINDOW: nat := 30 * SECOND
  const ACCESS_LIFETIME: nat := 30 * 60 * SECOND
  const REFRESH_SECONDS: nat := 7 * 86400
  const REFRESH_LIFETIME: nat := REFRESH_SECONDS * SECOND
  const WARM_SECONDS: nat := 3600
  const DEVICE_LIMIT: nat := 5

  lemma Limits()
    ensures SECOND == 1_000_000 && GRACE_WINDOW == 30_000_000 && DEVICE_LIMIT == 5
    ensures ACCESS_LIFETIME == 1_800_000_000 && REFRESH_LIFETIME == 604_800_000_000
    ensures GRACE_SECONDS == 30 && WARM_SECONDS == 3_600 && REFRESH_SECONDS == 604_800
  {
  }

  datatype Status = PendingVerification | Active | Suspended | Banned
  datatype Role = Member | Admin | Superuser

  /** A password hash; bcrypt is modelled by its verification law alone. */
  datatype Hash = HashOf(plain: string)

  predicate VerifyPassword(plain: string, hashed: Hash) {
    hashed == HashOf(plain)
  }

  /** A row of the users table. */
  datatype User = User(
    email: string, username: string, name: string, hashed: Hash, status: Status, role: Role, deletedAt: Option<Time>)

  /** A row of the sessions table. */
  datatype Session = Session(
    userId: UserId, expiresAt: Time, createdAt: Time, revokedAt: Option<Time>,
    previous: Option<SessionId>, device: Option<string>, ip: Option<string>)

  datatype Tables = Tables(users: map<UserId, User>, sessions: map<SessionId, Session>)

  /** The projection of a session that the gate needs, the only thing cached under `session:{id}`. */
  datatype SessionValidation = SessionValidation(
    id: SessionId, userId: UserId, expiresAt: Time, revokedAt: Option<Time>)
  {
    predicate IsExpired(now: Time) { now > expiresAt }
    predicate IsActive(now: Time) { !IsExpired(now) && revokedAt.None? }
  }

  function Project(id: SessionId, row: Session): SessionValidation {
    SessionValidation(id, row.userId, row.expiresAt, row.revokedAt)
  }

  /** The projection of a user cached under `user:{id}`. */
  datatype Identity = Identity(id: UserId, email: string, status: Status, role: Role)

  function IdentityOf(id: UserId, row: User): Identity {
    Identity(id, row.email, row.status, row.role)
  }

  /** The user data in the answer to a login. */
  datatype UserInfo = UserInfo(id: UserId, email: string, name: string, username: string, role: Role)

  function InfoOf(id: UserId, row: User): UserInfo {
    UserInfo(id, row.email, row.name, row.username, row.role)
  }

  /** Statuses that lock a user out of every session. */
  predicate IsLockout(status: Status) {
    status == Suspended || status == Banned
  }

  /** A user who may own an unrevoked session. */
  predicate MayHold(user: User) {
    user.deletedAt.None? && !IsLockout(user.status)
  }

  /** The soft-delete filter of every repository read. */
  predicate Visible(t: Tables, u: UserId) {
    u in t.users && t.users[u].deletedAt.None?
  }

  /** The transition table of the status machine; staying put is always accepted. */
  predicate MayTransition(from: Status, to: Status) {
    || to == from
    || match from {
         case PendingVerification => to == Active || to == Banned
         case Active => to == Suspended || to == Banned
         case Suspended => to == Active || to == Banned
         case Banned => false
       }
  }

  /**
   * The clock readings of one request, in the order the code takes them. A
   * request uses the readings its own path needs.
   */
  datatype Clock = Clock(
    begin: Time,
    decode: Time,       // the token is decoded
    readSession: Time,  // the gate looks up `session:{id}`
    warmSession: Time,  // the gate caches the projection of the row it read
    check: Time,        // expiry or grace-age check, or soft deletion
    readNext: Time,     // the second cache lookup: `user:{id}` or `grace:{id}`
    warmUser: Time,     // the gate caches the identity
    query: Time,        // the query for active sessions
    evict: seq<Time>,   // one reading per evicted session
    revoke: Time,       // rows are revoked
    window: Time,       // the new session's expiry, or what remains of the chain's
    mintAccess: Time,
    mintRefresh: Time,
    created: Time,      // the new session entity is built
    putSession: Time,   // `session:{id}` is cached
    putGrace: Time,     // `grace:{id}` is cached
    end: Time)

  ghost predicate Ordered(c: Clock) {
    && c.begin <= c.decode <= c.readSession <= c.warmSession <= c.check <= c.readNext <= c.warmUser
    && c.warmUser <= c.query <= c.revoke <= c.window <= c.mintAccess <= c.mintRefresh <= c.created
    && c.created <= c.putSession <= c.putGrace <= c.end
    && (forall i | 0 <= i < |c.evict| :: c.query <= c.evict[i] <= c.window)
    && (forall i, j | 0 <= i < j < |c.evict| :: c.evict[i] <= c.evict[j])
  }

  /** The reading taken for the i-th eviction. */
  function EvictTime(c: Clock, i: nat): Time {
    if i < |c.evict| then c.evict[i] else c.query
  }
}

/** Token claims: their layout, their expiry arithmetic, and decoding. */
module Tokens {
  import opened Types

  datatype Kind = Access | Refresh

  /** Claims of RFC 7519 section 4.1 as the program lays them out. */
  datatype Claims = Claims(sub: UserId, exp: Time, kind: Kind, jti: Option<SessionId>, sid: Option<SessionId>)

  datatype TokenPair = TokenPair(access: Claims, refresh: Claims)

  /** What a client presents: a token signed by this server, or anything else. */
  datatype Bearer = Unsigned | Signed(claims: Claims)

  function CreateToken(subject: UserId, lifetime: Time, kind: Kind, session: SessionId, now: Time): Claims {
    if kind == Refresh
    then Claims(subject, now + lifetime, kind, Some(session), None)
    else Claims(subject, now + lifetime, kind, None, Some(session))
  }

  function CreateAccessToken(subject: UserId, session: SessionId, now: Time): Claims {
    CreateToken(subject, ACCESS_LIFETIME, Access, session, now)
  }

  function CreateRefreshToken(subject: UserId, session: SessionId, seconds: Option<nat>, now: Time): Claims {
    CreateToken(subject, if seconds.Some? then seconds.value * SECOND else REFRESH_LIFETIME, Refresh, session, now)
  }

  /** Whole seconds left of a chain, never negative. */
  function RemainingSeconds(expiresAt: Time, now: Time): nat {
    if expiresAt >= now then (expiresAt - now) / SECOND else 0
  }

  /** Decoding inverts signing and rejects a token past its expiry, compared in whole seconds. */
  function DecodeToken(token: Bearer, now: Time): Option<Claims> {
    if token.Signed? && now / SECOND <= token.claims.exp / SECOND then Some(token.claims) else None
  }

  /** The pair minted for session `n` of user `u`. */
  predicate PairFor(pair: TokenPair, u: UserId, n: SessionId) {
    && pair.access.sub == u && pair.access.kind == Access && pair.access.sid == Some(n) && pair.access.jti == None
    && pair.refresh.sub == u && pair.refresh.kind == Refresh && pair.refresh.jti == Some(n) && pair.refresh.sid == None
  }
}
