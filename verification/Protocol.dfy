/**
 * What each request does: the effects it has on the two stores, in order, and
 * its answer. These functions specify the service classes and are what the
 * lemmas of the other modules reason about.
 */
module Protocol {
  import opened Types
  import opened Tokens
  import opened Store

  datatype Request =
    | CreateUser(id: UserId, email: string, username: string, name: string, password: string)
    | UpdateUser(id: UserId, newEmail: Option<string>, newUsername: Option<string>)
    | SetUserPassword(id: UserId, password: string)
    | ChangeStatus(id: UserId, status: Status)
    | DeleteUser(id: UserId)
    | Login(email: string, password: string, device: Option<string>, ip: Option<string>, newId: SessionId)
    | RefreshToken(token: Bearer, ip: Option<string>, newId: SessionId)
    | Logout(session: SessionId)
    | LogoutAll(id: UserId)
    | Gate(token: Bearer)

  datatype Reason =
    | InvalidCredentials | UserSuspended | UserBanned
    | InvalidToken | WrongKind | InvalidPayload
    | SessionNotFound | PleaseRetry | ReuseDetected | SessionExpired | AccountBlocked
    | SessionInactive | ForeignSession | ProfileNotFound
    | VerificationPending | AccountSuspended | AccountBanned
    | UserNotFound | EmailTaken | UsernameTaken | SeveralUsersFound | ConstraintViolated | InvalidTransition

  datatype Result =
    | Done
    | LoggedIn(pair: TokenPair, info: UserInfo)
    | Rotated(pair: TokenPair)
    | Replayed(pair: TokenPair)
    | Admitted(identity: Identity)
    | Rejected(reason: Reason)

  /** The effects of a request that runs to completion, and its answer. */
  datatype Served = Served(effects: seq<Effect>, result: Result)

  /** What the request's reads answered: the cache it saw, and the ordered list of active sessions. */
  datatype Reads = Reads(cache: Cache, active: seq<SessionId>)

  // ---- Queries -------------------------------------------------------------

  predicate IsActiveFor(row: Session, u: UserId, now: Time) {
    row.userId == u && row.revokedAt.None? && row.expiresAt > now
  }

  function ActiveSet(t: Tables, u: UserId, now: Time): set<SessionId> {
    set s | s in t.sessions && IsActiveFor(t.sessions[s], u, now)
  }

  predicate NoDup<T(==)>(l: seq<T>) {
    forall i, j | 0 <= i < j < |l| :: l[i] != l[j]
  }

  predicate OldestFirst(l: seq<SessionId>, t: Tables) {
    forall i, j | 0 <= i < j < |l| && l[i] in t.sessions && l[j] in t.sessions ::
      t.sessions[l[i]].createdAt <= t.sessions[l[j]].createdAt
  }

  /** An answer to the query for a user's active sessions: ties on `created_at` may fall either way. */
  predicate IsActiveList(l: seq<SessionId>, t: Tables, u: UserId, now: Time) {
    && NoDup(l)
    && (forall s | s in l :: s in ActiveSet(t, u, now))
    && (forall s | s in ActiveSet(t, u, now) :: s in l)
    && OldestFirst(l, t)
  }

  /** Every unrevoked session of a user, expired ones included. */
  function RevokeAll(t: Tables, u: UserId, at: Time): map<SessionId, Time> {
    map s | s in t.sessions && t.sessions[s].userId == u && t.sessions[s].revokedAt.None? :: at
  }

  predicate HasEmail(t: Tables, u: UserId, email: string) {
    u in t.users && t.users[u].email == email
  }

  ghost function FindByEmail(t: Tables, email: string): (r: Option<UserId>)
    ensures r.Some? ==> Visible(t, r.value) && HasEmail(t, r.value, email)
  {
    if u: UserId :| Visible(t, u) && HasEmail(t, u, email) then Some(u) else None
  }

  predicate HasUsername(t: Tables, u: UserId, username: string) {
    u in t.users && t.users[u].username == username
  }

  ghost function FindByUsername(t: Tables, username: string): (r: Option<UserId>)
    ensures r.Some? ==> Visible(t, r.value) && HasUsername(t, r.value, username)
  {
    if u: UserId :| Visible(t, u) && HasUsername(t, u, username) then Some(u) else None
  }

  /** The unique indexes on `email` and `username` cover soft-deleted rows too. */
  ghost predicate NamesFree(t: Tables, email: string, username: string, id: UserId) {
    forall v | v in t.users && v != id :: t.users[v].email != email && t.users[v].username != username
  }

  function ReadSession(cache: Cache, s: SessionId, now: Time): Option<SessionValidation> {
    match Read(cache, SessionKey(s), now)
    case Some(SessionValue(v)) => Some(v)
    case _ => None
  }

  function ReadIdentity(cache: Cache, u: UserId, now: Time): Option<Identity> {
    match Read(cache, UserKey(u), now)
    case Some(UserValue(i)) => Some(i)
    case _ => None
  }

  function ReadGrace(cache: Cache, s: SessionId, now: Time): Option<TokenPair> {
    match Read(cache, GraceKey(s), now)
    case Some(PairValue(p)) => Some(p)
    case _ => None
  }

  // ---- Login ---------------------------------------------------------------

  /** The oldest sessions, as many as bring the count down to one below the limit. */
  function Evicted(active: seq<SessionId>): seq<SessionId> {
    if |active| >= DEVICE_LIMIT then active[..|active| - (DEVICE_LIMIT - 1)] else []
  }

  function EvictMap(drop: seq<SessionId>, c: Clock): map<SessionId, Time> {
    if drop == [] then map[]
    else EvictMap(drop[..|drop| - 1], c)[drop[|drop| - 1] := EvictTime(c, |drop| - 1)]
  }

  function LoginRow(u: UserId, device: Option<string>, ip: Option<string>, c: Clock): Session {
    Session(u, c.window + REFRESH_LIFETIME, c.created, None, None, device, ip)
  }

  function LoginPair(u: UserId, newId: SessionId, c: Clock): TokenPair {
    TokenPair(CreateAccessToken(u, newId, c.mintAccess), CreateRefreshToken(u, newId, None, c.mintRefresh))
  }

  function LoginDelta(u: UserId, active: seq<SessionId>, device: Option<string>, ip: Option<string>,
                      newId: SessionId, c: Clock): Delta {
    Delta(NoChange, EvictMap(Evicted(active), c), map[newId := LoginRow(u, device, ip, c)])
  }

  function CacheSession(s: SessionId, row: Session, seconds: nat, now: Time): Effect {
    Put(SessionKey(s), EntryFor(SessionValue(Project(s, row)), Some(seconds), now))
  }

  function LoginPlan(u: UserId, active: seq<SessionId>, device: Option<string>, ip: Option<string>,
                     newId: SessionId, c: Clock): seq<Effect> {
    DelAll(SessionKeys(Evicted(active))) +
    [Commit(LoginDelta(u, active, device, ip, newId, c)),
     Issue(newId, LoginPair(u, newId, c)),
     CacheSession(newId, LoginRow(u, device, ip, c), REFRESH_SECONDS, c.putSession)]
  }

  ghost function ServeLogin(t: Tables, r: Reads, q: Request, c: Clock): Served
    requires q.Login?
  {
    match FindByEmail(t, q.email)
    case None => Served([], Rejected(InvalidCredentials))
    case Some(u) =>
      var user := t.users[u];
      if !VerifyPassword(q.password, user.hashed) then Served([], Rejected(InvalidCredentials))
      else if user.status == Suspended then Served([], Rejected(UserSuspended))
      else if user.status == Banned then Served([], Rejected(UserBanned))
      else Served(LoginPlan(u, r.active, q.device, q.ip, q.newId, c), LoggedIn(LoginPair(u, q.newId, c), InfoOf(u, user)))
  }

  // ---- Rotation, grace and breach --------------------------------------------

  function RotatedRow(s: SessionId, row: Session, sub: UserId, ip: Option<string>, c: Clock): Session {
    Session(sub, row.expiresAt, c.created, None, Some(s), row.device, ip)
  }

  function RotatedPair(row: Session, sub: UserId, newId: SessionId, c: Clock): TokenPair {
    TokenPair(
      CreateAccessToken(sub, newId, c.mintAccess),
      CreateRefreshToken(sub, newId, Some(RemainingSeconds(row.expiresAt, c.window)), c.mintRefresh))
  }

  function RotationDelta(s: SessionId, row: Session, sub: UserId, ip: Option<string>, newId: SessionId, c: Clock): Delta {
    Delta(NoChange, map[s := c.revoke], map[newId := RotatedRow(s, row, sub, ip, c)])
  }

  function RotationPlan(s: SessionId, row: Session, sub: UserId, ip: Option<string>, newId: SessionId, c: Clock): seq<Effect> {
    [Del(SessionKey(s)),
     Commit(RotationDelta(s, row, sub, ip, newId, c)),
     Issue(newId, RotatedPair(row, sub, newId, c)),
     CacheSession(newId, RotatedRow(s, row, sub, ip, c), RemainingSeconds(row.expiresAt, c.window), c.putSession),
     Put(GraceKey(s), EntryFor(PairValue(RotatedPair(row, sub, newId, c)), Some(GRACE_SECONDS), c.putGrace))]
  }

  /** Logging out everywhere commits first and purges afterwards. */
  function LogoutAllPlan(revoke: map<SessionId, Time>, active: seq<SessionId>): seq<Effect> {
    [Commit(Delta(NoChange, revoke, map[]))] + DelAll(PurgeKeys(active))
  }

  /** Whether a revocation is recent enough to be a benign race. */
  predicate InGrace(row: Session, now: Time) {
    row.revokedAt.Some? && now <= row.revokedAt.value + GRACE_WINDOW
  }

  function ServeRefresh(t: Tables, r: Reads, q: Request, c: Clock): Served
    requires q.RefreshToken?
  {
    match DecodeToken(q.token, c.decode)
    case None => Served([], Rejected(InvalidToken))
    case Some(claims) =>
      if claims.kind != Refresh then Served([], Rejected(WrongKind))
      else match claims.jti
        case None => Served([], Rejected(InvalidPayload))
        case Some(s) =>
          if s !in t.sessions then Served([], Rejected(SessionNotFound))
          else
            var row := t.sessions[s];
            if row.revokedAt.Some? then
              if InGrace(row, c.check) then
                match ReadGrace(r.cache, s, c.readNext)
                case Some(pair) => Served([], Replayed(pair))
                case None => Served([], Rejected(PleaseRetry))
              else
                Served(LogoutAllPlan(RevokeAll(t, claims.sub, c.revoke), r.active), Rejected(ReuseDetected))
            else if c.check > row.expiresAt then Served([], Rejected(SessionExpired))
            else if !(Visible(t, claims.sub) && MayHold(t.users[claims.sub])) then Served([], Rejected(AccountBlocked))
            else Served(RotationPlan(s, row, claims.sub, q.ip, q.newId, c),
                        Rotated(RotatedPair(row, claims.sub, q.newId, c)))
  }

  // ---- Logout ----------------------------------------------------------------

  /** A session revoked before keeps its first `revoked_at`. */
  function LogoutRevoke(s: SessionId, row: Session, at: Time): map<SessionId, Time> {
    if row.revokedAt.None? then map[s := at] else map[]
  }

  function LogoutPlan(s: SessionId, row: Session, c: Clock): seq<Effect> {
    [Commit(Delta(NoChange, LogoutRevoke(s, row, c.revoke), map[])), Del(SessionKey(s)), Del(GraceKey(s))]
  }

  // ---- The gate --------------------------------------------------------------

  function StatusVerdict(who: Identity): Result {
    match who.status
    case PendingVerification => Rejected(VerificationPending)
    case Suspended => Rejected(AccountSuspended)
    case Banned => Rejected(AccountBanned)
    case Active => Admitted(who)
  }

  function WarmSession(s: SessionId, row: Session, c: Clock): Effect {
    CacheSession(s, row, WARM_SECONDS, c.warmSession)
  }

  function WarmIdentity(u: UserId, row: User, c: Clock): Effect {
    Put(UserKey(u), EntryFor(UserValue(IdentityOf(u, row)), Some(WARM_SECONDS), c.warmUser))
  }

  /** The gate once the session is known to be in order. */
  function ServeIdentity(t: Tables, cache: Cache, u: UserId, c: Clock): Served {
    match ReadIdentity(cache, u, c.readNext)
    case Some(who) => Served([], StatusVerdict(who))
    case None =>
      if !Visible(t, u) then Served([], Rejected(ProfileNotFound))
      else Served([WarmIdentity(u, t.users[u], c)], StatusVerdict(IdentityOf(u, t.users[u])))
  }

  function ServeGate(t: Tables, r: Reads, q: Request, c: Clock): Served
    requires q.Gate?
  {
    match DecodeToken(q.token, c.decode)
    case None => Served([], Rejected(InvalidToken))
    case Some(claims) =>
      if claims.kind != Access then Served([], Rejected(WrongKind))
      else match claims.sid
        case None => Served([], Rejected(InvalidPayload))
        case Some(s) =>
          var hit := ReadSession(r.cache, s, c.readSession);
          var warm := if hit.None? && s in t.sessions then [WarmSession(s, t.sessions[s], c)] else [];
          var session := if hit.None? && s in t.sessions then Some(Project(s, t.sessions[s])) else hit;
          if session.None? || !session.value.IsActive(c.check) then Served(warm, Rejected(SessionInactive))
          else if session.value.userId != claims.sub then Served(warm, Rejected(ForeignSession))
          else
            var rest := ServeIdentity(t, r.cache, claims.sub, c);
            Served(warm + rest.effects, rest.result)
  }

  /** The gate without a cache: both tables are read directly. */
  function DirectGate(t: Tables, q: Request, c: Clock): Result
    requires q.Gate?
  {
    match DecodeToken(q.token, c.decode)
    case None => Rejected(InvalidToken)
    case Some(claims) =>
      if claims.kind != Access then Rejected(WrongKind)
      else if claims.sid.None? then Rejected(InvalidPayload)
      else
        var s := claims.sid.value;
        if s !in t.sessions || t.sessions[s].revokedAt.Some? || c.check > t.sessions[s].expiresAt
        then Rejected(SessionInactive)
        else if t.sessions[s].userId != claims.sub then Rejected(ForeignSession)
        else if !Visible(t, claims.sub) then Rejected(ProfileNotFound)
        else StatusVerdict(IdentityOf(claims.sub, t.users[claims.sub]))
  }

  // ---- User commands -----------------------------------------------------------

  /** A lockout purges the cache first, so that the commit publishes nothing the cache contradicts. */
  function LockoutPlan(u: UserId, write: UserWrite, revoke: map<SessionId, Time>, active: seq<SessionId>): seq<Effect> {
    DelAll(PurgeKeys(active)) + [Commit(Delta(Change(u, write), revoke, map[])), Del(UserKey(u))]
  }

  function ProfilePlan(u: UserId, write: UserWrite): seq<Effect> {
    [Commit(Delta(Change(u, write), map[], map[])), Del(UserKey(u))]
  }

  function CommitWrite(u: UserId, write: UserWrite): Effect {
    Commit(Delta(Change(u, write), map[], map[]))
  }

  /** New users are active, with the default role. */
  function NewUser(email: string, username: string, name: string, password: string): User {
    User(email, username, name, HashOf(password), Active, Member, None)
  }

  /** One query looks for the email or the username; it must not find two users. */
  ghost function NameConflict(t: Tables, email: string, username: string): Option<Reason> {
    var byEmail, byUsername := FindByEmail(t, email), FindByUsername(t, username);
    if byEmail.Some? && byUsername.Some? && byEmail != byUsername then Some(SeveralUsersFound)
    else if byEmail.Some? then Some(EmailTaken)
    else if byUsername.Some? then Some(UsernameTaken)
    else None
  }

  ghost predicate EmailTakenFrom(t: Tables, email: string, u: UserId) {
    FindByEmail(t, email).Some? && FindByEmail(t, email).value != u
  }

  ghost predicate UsernameTakenFrom(t: Tables, username: string, u: UserId) {
    FindByUsername(t, username).Some? && FindByUsername(t, username).value != u
  }

  ghost function ServeUser(t: Tables, r: Reads, q: Request, c: Clock): Served
    requires q.CreateUser? || q.UpdateUser? || q.SetUserPassword? || q.ChangeStatus? || q.DeleteUser?
  {
    match q
    case CreateUser(u, email, username, name, password) =>
      if NameConflict(t, email, username).Some? then Served([], Rejected(NameConflict(t, email, username).value))
      else if !NamesFree(t, email, username, u) then Served([], Rejected(ConstraintViolated))
      else Served([CommitWrite(u, Create(NewUser(email, username, name, password)))], Done)
    case UpdateUser(u, newEmail, newUsername) =>
      if !Visible(t, u) then Served([], Rejected(UserNotFound))
      else if newEmail.Some? && EmailTakenFrom(t, newEmail.value, u) then Served([], Rejected(EmailTaken))
      else if newUsername.Some? && UsernameTakenFrom(t, newUsername.value, u) then Served([], Rejected(UsernameTaken))
      else if newEmail.None? && newUsername.None? then Served([], Done)
      else if !NamesFree(t, newEmail.GetOr(t.users[u].email), newUsername.GetOr(t.users[u].username), u) then
        Served([], Rejected(ConstraintViolated))
      else Served(ProfilePlan(u, SetProfile(newEmail, newUsername)), Done)
    case SetUserPassword(u, password) =>
      if !Visible(t, u) then Served([], Rejected(UserNotFound))
      else Served(ProfilePlan(u, SetPassword(HashOf(password))), Done)
    case ChangeStatus(u, status) =>
      if !Visible(t, u) then Served([], Rejected(UserNotFound))
      else if !MayTransition(t.users[u].status, status) then Served([], Rejected(InvalidTransition))
      else if IsLockout(status) then Served(LockoutPlan(u, SetStatus(status), RevokeAll(t, u, c.revoke), r.active), Done)
      else Served(ProfilePlan(u, SetStatus(status)), Done)
    case DeleteUser(u) =>
      if !Visible(t, u) then Served([], Rejected(UserNotFound))
      else Served(LockoutPlan(u, SetDeleted(c.check), RevokeAll(t, u, c.revoke), r.active), Done)
  }

  ghost function Serve(t: Tables, r: Reads, q: Request, c: Clock): Served {
    match q
    case Login(_, _, _, _, _) => ServeLogin(t, r, q, c)
    case RefreshToken(_, _, _) => ServeRefresh(t, r, q, c)
    case Logout(s) =>
      if s in t.sessions then Served(LogoutPlan(s, t.sessions[s], c), Done) else Served([], Done)
    case LogoutAll(u) => Served(LogoutAllPlan(RevokeAll(t, u, c.revoke), r.active), Done)
    case Gate(_) => ServeGate(t, r, q, c)
    case _ => ServeUser(t, r, q, c)
  }

  /** The user whose active sessions the request queries, if it does. */
  ghost function Queried(t: Tables, q: Request, c: Clock): Option<UserId> {
    match q
    case Login(email, _, _, _, _) => FindByEmail(t, email)
    case RefreshToken(token, _, _) =>
      (match DecodeToken(token, c.decode) case Some(claims) => Some(claims.sub) case None => None)
    case LogoutAll(u) => Some(u)
    case ChangeStatus(u, _) => Some(u)
    case DeleteUser(u) => Some(u)
    case _ => None
  }
}
