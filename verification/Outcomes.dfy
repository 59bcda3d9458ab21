/**
 * What every request answers and writes, in terms of rows, claims and numbers
 * alone: an account of the protocol that shares none of its definitions.
 */
module Outcomes {
  import opened Types
  import opened Tokens
  import opened Store
  import opened Protocol
  import opened Invariants
  import opened Commits
  import opened Requests
  import opened Runs
  import opened Transactions
  import opened FreeRuns
  import opened Gatekeeping
  import opened History

  // ---- Tokens -------------------------------------------------------------------------------

  /** A token of this server and kind, not past its expiry in whole seconds. */
  predicate Good(token: Bearer, kind: Kind, at: Time) {
    token.Signed? && token.claims.kind == kind && at / 1_000_000 <= token.claims.exp / 1_000_000
  }

  /** An access token lives thirty minutes, and names its session in `sid`. */
  predicate FreshAccess(claims: Claims, u: UserId, n: SessionId, c: Clock) {
    claims == Claims(u, c.mintAccess + 1_800_000_000, Access, None, Some(n))
  }

  /** A rotated refresh token lives for the whole seconds left of the chain, and names its session in `jti`. */
  predicate ChainRefresh(claims: Claims, u: UserId, n: SessionId, expiresAt: Time, c: Clock) {
    && claims == Claims(u, claims.exp, Refresh, Some(n), None)
    && expiresAt < claims.exp + 1_000_000
    && claims.exp <= (if c.window <= expiresAt then expiresAt + (c.mintRefresh - c.window) else c.mintRefresh)
  }

  // ---- Login --------------------------------------------------------------------------------

  /** The row a login of this email is for. */
  ghost predicate OwnsEmail(t: Tables, u: UserId, email: string) {
    u in t.users && t.users[u].deletedAt == None && t.users[u].email == email
  }

  /** A login succeeds exactly for the right password of a user neither suspended nor banned. */
  lemma LoginOutcome(w: World, e: Event, u: UserId)
    requires e.req.Login? && UniqueNames(w.tables) && OwnsEmail(w.tables, u, e.req.email)
    ensures
      var row, c := w.tables.users[u], e.clock;
      Answer(w, e).result ==
        if row.hashed != HashOf(e.req.password) then Rejected(InvalidCredentials)
        else if row.status == Suspended then Rejected(UserSuspended)
        else if row.status == Banned then Rejected(UserBanned)
        else LoggedIn(
               TokenPair(Claims(u, c.mintAccess + 1_800_000_000, Access, None, Some(e.req.newId)),
                         Claims(u, c.mintRefresh + 604_800_000_000, Refresh, Some(e.req.newId), None)),
               UserInfo(u, row.email, row.name, row.username, row.role))
  {
    assert Visible(w.tables, u) && HasEmail(w.tables, u, e.req.email);
    assert FindByEmail(w.tables, e.req.email) == Some(u);
    hide FindByEmail, LoginPlan;
  }

  /** An email that no visible user has is refused like a wrong password. */
  lemma LoginUnknown(w: World, e: Event)
    requires e.req.Login? && forall u :: !OwnsEmail(w.tables, u, e.req.email)
    ensures Answer(w, e) == Served([], Rejected(InvalidCredentials))
  {
    if FindByEmail(w.tables, e.req.email).Some? {
      assert OwnsEmail(w.tables, FindByEmail(w.tables, e.req.email).value, e.req.email);
    }
  }

  /** An answer to the query for active sessions: exactly those, each once, oldest first. */
  lemma ActiveListing(l: seq<SessionId>, t: Tables, u: UserId, now: Time)
    ensures IsActiveList(l, t, u, now) <==>
      && (forall i, j | 0 <= i < j < |l| :: l[i] != l[j])
      && (forall s :: s in l <==> s in t.sessions && t.sessions[s].userId == u && t.sessions[s].revokedAt == None && now < t.sessions[s].expiresAt)
      && (forall i, j | 0 <= i < j < |l| && l[i] in t.sessions && l[j] in t.sessions :: t.sessions[l[i]].createdAt <= t.sessions[l[j]].createdAt)
  {
    assert forall s :: s in ActiveSet(t, u, now) <==> s in t.sessions && IsActiveFor(t.sessions[s], u, now);
  }

  // ---- Refresh ------------------------------------------------------------------------------

  /** The grace entry the request finds. */
  predicate FindsPair(r: Reads, s: SessionId, at: Time, pair: TokenPair) {
    && GraceKey(s) in r.cache && r.cache[GraceKey(s)].value == PairValue(pair)
    && (r.cache[GraceKey(s)].expiry == None || at <= r.cache[GraceKey(s)].expiry.value)
  }

  /** A user who may go on: not deleted, suspended or banned. */
  predicate InStanding(t: Tables, u: UserId) {
    u in t.users && t.users[u].deletedAt == None && (t.users[u].status == Active || t.users[u].status == PendingVerification)
  }

  /** A refresh rotates exactly on a good token of an unrevoked, unexpired session of a user in standing. */
  lemma RotationOutcome(w: World, e: Event)
    requires e.req.RefreshToken? && Ordered(e.clock)
    ensures Answer(w, e).result.Rotated? <==>
      && Good(e.req.token, Refresh, e.clock.decode)
      && var claims := e.req.token.claims;
         && claims.jti.Some? && claims.jti.value in w.tables.sessions
         && w.tables.sessions[claims.jti.value].revokedAt == None
         && e.clock.check <= w.tables.sessions[claims.jti.value].expiresAt
         && InStanding(w.tables, claims.sub)
    ensures Answer(w, e).result.Rotated? ==>
      var claims, pair := e.req.token.claims, Answer(w, e).result.pair;
      && FreshAccess(pair.access, claims.sub, e.req.newId, e.clock)
      && ChainRefresh(pair.refresh, claims.sub, e.req.newId, w.tables.sessions[claims.jti.value].expiresAt, e.clock)
  {
    hide RotationPlan, LogoutAllPlan, RevokeAll, ReadGrace;
  }

  /** Every other answer to a refresh, exactly. */
  lemma RefreshOutcome(w: World, e: Event)
    requires e.req.RefreshToken?
    ensures Answer(w, e).result == Rejected(InvalidToken) <==>
      !Good(e.req.token, Refresh, e.clock.decode) && !Good(e.req.token, Access, e.clock.decode)
    ensures Answer(w, e).result == Rejected(WrongKind) <==> Good(e.req.token, Access, e.clock.decode)
    ensures Good(e.req.token, Refresh, e.clock.decode) ==>
      var claims, result := e.req.token.claims, Answer(w, e).result;
      && (result == Rejected(InvalidPayload) <==> claims.jti == None)
      && (claims.jti.Some? ==>
            var s, known := claims.jti.value, claims.jti.value in w.tables.sessions;
            var live := known && w.tables.sessions[s].revokedAt == None;
            && (result == Rejected(SessionNotFound) <==> !known)
            && (result == Rejected(SessionExpired) <==> live && w.tables.sessions[s].expiresAt < e.clock.check)
            && (result == Rejected(AccountBlocked) <==>
                  live && e.clock.check <= w.tables.sessions[s].expiresAt && !InStanding(w.tables, claims.sub)))
  {
    hide RotationPlan, LogoutAllPlan, RevokeAll, ReadGrace, RotatedPair;
  }

  /** A refresh of a revoked session: replay, retry, or breach. */
  lemma RevokedOutcome(w: World, e: Event, s: SessionId, revokedAt: Time)
    requires e.req.RefreshToken? && Good(e.req.token, Refresh, e.clock.decode) && e.req.token.claims.jti == Some(s)
    requires s in w.tables.sessions && w.tables.sessions[s].revokedAt == Some(revokedAt)
    ensures
      var early := e.clock.check <= revokedAt + 30_000_000;
      && (Answer(w, e).result == Rejected(ReuseDetected) <==> !early)
      && (forall pair :: Answer(w, e).result == Replayed(pair) <==> early && FindsPair(e.seen, s, e.clock.readNext, pair))
      && (Answer(w, e).result == Rejected(PleaseRetry) <==> early && forall pair :: !FindsPair(e.seen, s, e.clock.readNext, pair))
  {
    hide LogoutAllPlan, RevokeAll;
    var r := Answer(w, e).result;
    if e.clock.check <= revokedAt + 30_000_000 && GraceKey(s) in e.seen.cache && e.seen.cache[GraceKey(s)].value.PairValue? {
      var pair := e.seen.cache[GraceKey(s)].value.pair;
      assert FindsPair(e.seen, s, e.clock.readNext, pair) <==> r == Replayed(pair);
    }
  }

  // ---- The gate ------------------------------------------------------------------------------

  /** A token, session and user that the gate lets through. */
  predicate Passes(t: Tables, token: Bearer, c: Clock) {
    && Good(token, Access, c.decode) && token.claims.sid.Some? && token.claims.sid.value in t.sessions
    && var row, u := t.sessions[token.claims.sid.value], token.claims.sub;
       && row.revokedAt == None && c.check <= row.expiresAt && row.userId == u
       && u in t.users && t.users[u].deletedAt == None
  }

  /** The gate that reads both tables, in terms of their rows. */
  lemma DirectGateOutcome(t: Tables, q: Request, c: Clock)
    requires q.Gate?
    ensures Passes(t, q.token, c) ==>
      var u := q.token.claims.sub;
      DirectGate(t, q, c) ==
        match t.users[u].status
        case PendingVerification => Rejected(VerificationPending)
        case Suspended => Rejected(AccountSuspended)
        case Banned => Rejected(AccountBanned)
        case Active => Admitted(Identity(u, t.users[u].email, Active, t.users[u].role))
    ensures !Passes(t, q.token, c) ==> DirectGate(t, q, c).Rejected?
    ensures DirectGate(t, q, c) == Rejected(InvalidToken) <==> !Good(q.token, Refresh, c.decode) && !Good(q.token, Access, c.decode)
  {
  }

  /**
   * In every reachable world whose user commands finished, and whatever is
   * cached of it, the gate admits exactly an active user on an unrevoked,
   * unexpired session of theirs with an unexpired token, with the user's own
   * email and role.
   */
  lemma GateDecision(ws: seq<World>, es: seq<Event>, i: nat, r: Reads, q: Request, c: Clock)
    requires SettledRun(ws, es) && i <= |es| && q.Gate?
    requires Ordered(c) && ClockBefore(es, i) < c.begin && Submap(r.cache, ws[i].cache)
    ensures forall who :: ServeGate(ws[i].tables, r, q, c).result == Admitted(who) <==>
      && Passes(ws[i].tables, q.token, c)
      && ws[i].tables.users[q.token.claims.sub].status == Active
      && who == Identity(q.token.claims.sub, ws[i].tables.users[q.token.claims.sub].email, Active,
                         ws[i].tables.users[q.token.claims.sub].role)
  {
    hide Settled, Step, Initial, Ordered, Submap, ServeGate, DirectGate, Passes;
    GateRefines(ws, es, i, r, q, c);
    DirectGateOutcome(ws[i].tables, q, c);
  }

  /** Whatever any cache holds, an expired token is refused as invalid, and no other access token is. */
  lemma GateNeedsLiveToken(t: Tables, r: Reads, q: Request, c: Clock)
    requires q.Gate?
    ensures ServeGate(t, r, q, c).result == Rejected(InvalidToken) <==>
            !Good(q.token, Refresh, c.decode) && !Good(q.token, Access, c.decode)
    ensures ServeGate(t, r, q, c).result.Admitted? ==> Good(q.token, Access, c.decode)
  {
    hide ReadSession, ReadIdentity, EntryFor;
  }

  // ---- User commands --------------------------------------------------------------------------

  predicate Shown(t: Tables, u: UserId) {
    u in t.users && t.users[u].deletedAt == None
  }

  ghost predicate OwnsUsername(t: Tables, u: UserId, username: string) {
    Shown(t, u) && t.users[u].username == username
  }

  /** No other row, deleted ones included, has the email. */
  ghost predicate EmailOpen(t: Tables, u: UserId, email: string) {
    forall v | v in t.users && v != u :: t.users[v].email != email
  }

  ghost predicate UsernameOpen(t: Tables, u: UserId, username: string) {
    forall v | v in t.users && v != u :: t.users[v].username != username
  }

  lemma EmailFound(t: Tables, email: string)
    requires UniqueNames(t)
    ensures forall u :: FindByEmail(t, email) == Some(u) <==> OwnsEmail(t, u, email)
  {
    forall u ensures FindByEmail(t, email) == Some(u) <==> OwnsEmail(t, u, email) {
      if OwnsEmail(t, u, email) {
        assert Visible(t, u) && HasEmail(t, u, email);
      }
    }
  }

  lemma UsernameFound(t: Tables, username: string)
    requires UniqueNames(t)
    ensures forall u :: FindByUsername(t, username) == Some(u) <==> OwnsUsername(t, u, username)
  {
    forall u ensures FindByUsername(t, username) == Some(u) <==> OwnsUsername(t, u, username) {
      if OwnsUsername(t, u, username) {
        assert Visible(t, u) && HasUsername(t, u, username);
      }
    }
  }

  lemma NamesOpen(t: Tables, u: UserId, email: string, username: string)
    ensures NamesFree(t, email, username, u) <==> EmailOpen(t, u, email) && UsernameOpen(t, u, username)
  {
  }

  /** A registration succeeds exactly if no row, deleted or not, has either name. */
  lemma CreateOutcome(w: World, e: Event)
    requires e.req.CreateUser? && UniqueNames(w.tables) && e.req.id !in w.tables.users
    ensures
      var t, q, r := w.tables, e.req, Answer(w, e).result;
      && (r == Done <==> EmailOpen(t, q.id, q.email) && UsernameOpen(t, q.id, q.username))
      && (r == Rejected(SeveralUsersFound) <==>
            exists u, v :: u != v && OwnsEmail(t, u, q.email) && OwnsUsername(t, v, q.username))
      && (r == Rejected(EmailTaken) <==>
            exists u :: OwnsEmail(t, u, q.email) && forall v | OwnsUsername(t, v, q.username) :: v == u)
      && (r == Rejected(UsernameTaken) <==>
            (exists v :: OwnsUsername(t, v, q.username)) && forall u :: !OwnsEmail(t, u, q.email))
      && (r.Rejected? || r == Done)
  {
    hide FindByEmail, FindByUsername, NamesFree, EmailOpen, UsernameOpen, OwnsEmail, OwnsUsername, UniqueNames;
    var t, q := w.tables, e.req;
    EmailFound(t, q.email);
    UsernameFound(t, q.username);
    NamesOpen(t, q.id, q.email, q.username);
    OwnersClose(t, q.id, q.email, q.username);
    var byEmail, byUsername := FindByEmail(t, q.email), FindByUsername(t, q.username);
    if byEmail.Some? { assert OwnsEmail(t, byEmail.value, q.email); }
    if byUsername.Some? { assert OwnsUsername(t, byUsername.value, q.username); }
  }

  lemma OwnersClose(t: Tables, id: UserId, email: string, username: string)
    requires id !in t.users
    ensures (exists u :: OwnsEmail(t, u, email)) ==> !EmailOpen(t, id, email)
    ensures (exists u :: OwnsUsername(t, u, username)) ==> !UsernameOpen(t, id, username)
  {
  }

  /** An update succeeds exactly for a visible user and names that no other row has. */
  lemma UpdateOutcome(w: World, e: Event)
    requires e.req.UpdateUser? && UniqueNames(w.tables)
    ensures
      var t, q, r := w.tables, e.req, Answer(w, e).result;
      && (r == Done <==>
            && Shown(t, q.id)
            && (q.newEmail.Some? ==> EmailOpen(t, q.id, q.newEmail.value))
            && (q.newUsername.Some? ==> UsernameOpen(t, q.id, q.newUsername.value)))
      && (r == Rejected(UserNotFound) <==> !Shown(t, q.id))
      && (r == Rejected(EmailTaken) <==>
            Shown(t, q.id) && q.newEmail.Some? && exists u :: u != q.id && OwnsEmail(t, u, q.newEmail.value))
      && (r == Rejected(UsernameTaken) <==>
            && Shown(t, q.id) && q.newUsername.Some? && (exists u :: u != q.id && OwnsUsername(t, u, q.newUsername.value))
            && (q.newEmail.Some? ==> forall u | OwnsEmail(t, u, q.newEmail.value) :: u == q.id))
      && (r.Rejected? || r == Done)
  {
    hide FindByEmail, FindByUsername, NamesFree, EmailOpen, UsernameOpen, OwnsEmail, OwnsUsername, UniqueNames;
    var t, q := w.tables, e.req;
    if Shown(t, q.id) {
      var email := if q.newEmail.Some? then q.newEmail.value else t.users[q.id].email;
      var username := if q.newUsername.Some? then q.newUsername.value else t.users[q.id].username;
      EmailFound(t, email);
      UsernameFound(t, username);
      NamesOpen(t, q.id, email, username);
      OwnNamesOpen(t, q.id);
      OthersClose(t, q.id, email, username);
      var byEmail, byUsername := FindByEmail(t, email), FindByUsername(t, username);
      if byEmail.Some? { assert OwnsEmail(t, byEmail.value, email); }
      if byUsername.Some? { assert OwnsUsername(t, byUsername.value, username); }
    }
  }

  lemma OwnNamesOpen(t: Tables, u: UserId)
    requires UniqueNames(t) && u in t.users
    ensures EmailOpen(t, u, t.users[u].email) && UsernameOpen(t, u, t.users[u].username)
  {
  }

  lemma OthersClose(t: Tables, id: UserId, email: string, username: string)
    ensures (exists u :: u != id && OwnsEmail(t, u, email)) ==> !EmailOpen(t, id, email)
    ensures (exists u :: u != id && OwnsUsername(t, u, username)) ==> !UsernameOpen(t, id, username)
  {
  }

  /** The other commands on a user, exactly. */
  lemma CommandOutcome(w: World, e: Event)
    ensures e.req.SetUserPassword? || e.req.DeleteUser? ==>
      Answer(w, e).result == if Shown(w.tables, e.req.id) then Done else Rejected(UserNotFound)
    ensures e.req.ChangeStatus? ==>
      Answer(w, e).result ==
        if !Shown(w.tables, e.req.id) then Rejected(UserNotFound)
        else
          var was, now := w.tables.users[e.req.id].status, e.req.status;
          if || now == was
             || (was == PendingVerification && (now == Active || now == Banned))
             || (was == Active && (now == Suspended || now == Banned))
             || (was == Suspended && (now == Active || now == Banned))
          then Done else Rejected(InvalidTransition)
    ensures e.req.Logout? || e.req.LogoutAll? ==> Answer(w, e).result == Done
  {
    hide LockoutPlan, ProfilePlan, RevokeAll, LogoutPlan, LogoutAllPlan;
  }
}
