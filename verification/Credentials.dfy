/** What whole runs make of passwords and of the age of tokens. */
module Credentials {
  import opened Types
  import opened Tokens
  import opened Store
  import opened Protocol
  import opened Invariants
  import opened Runs
  import opened Transactions
  import opened FreeRuns
  import opened History
  import opened Outcomes
  import opened Writes

  // ---- Passwords ----------------------------------------------------------------------------

  /** A committed registration or change of password. */
  ghost predicate Sets(w: World, e: Event, u: UserId, password: string) {
    && Committed(w, e)
    && ((e.req.CreateUser? && e.req.id == u && e.req.password == password) || e.req == SetUserPassword(u, password))
  }

  ghost predicate Resets(w: World, e: Event, u: UserId) {
    Committed(w, e) && e.req.SetUserPassword? && e.req.id == u
  }

  lemma StepPassword(w: World, before: Time, e: Event, w': World, u: UserId)
    requires FreeStep(w, before, e, w')
    ensures u in w.tables.users && !Resets(w, e, u) ==> u in w'.tables.users && w'.tables.users[u].hashed == w.tables.users[u].hashed
    ensures forall p | Sets(w, e, u, p) && (e.req.CreateUser? || u in w.tables.users) ::
              u in w'.tables.users && w'.tables.users[u].hashed == HashOf(p)
  {
    hide FreeStep, Committed;
    UserWrites(w, before, e, w');
    if e.req.CreateUser? {
      NewUserFresh(w, before, e, w');
    }
  }

  lemma NewUserFresh(w: World, before: Time, e: Event, w': World)
    requires FreeStep(w, before, e, w') && e.req.CreateUser?
    ensures e.req.id !in w.tables.users
  {
    hide Answer, IsActiveList, Ordered, Play;
  }

  /** Only a visible user's password is changed. */
  lemma ResetsVisible(w: World, before: Time, e: Event, w': World, u: UserId)
    requires FreeStep(w, before, e, w') && Resets(w, e, u)
    ensures u in w.tables.users
  {
    hide FreeStep, Committed;
    StepWrites(w, before, e, w');
  }

  /** The password last set is the one on the row. */
  lemma {:induction false} PasswordHolds(ws: seq<World>, es: seq<Event>, i: nat, j: nat, u: UserId, p: string)
    requires FreeRun(ws, es) && i < j <= |es| && Sets(ws[i], es[i], u, p)
    requires forall k | i < k < j :: !Resets(ws[k], es[k], u)
    ensures u in ws[j].tables.users && ws[j].tables.users[u].hashed == HashOf(p)
    decreases j
  {
    hide FreeStep, Initial, Sets, Resets;
    StepPassword(ws[j - 1], ClockBefore(es, j - 1), es[j - 1], ws[j], u);
    if i == j - 1 {
      SetsKnown(ws[i], ClockBefore(es, i), es[i], ws[j], u, p);
    } else {
      PasswordHolds(ws, es, i, j - 1, u, p);
    }
  }

  lemma SetsKnown(w: World, before: Time, e: Event, w': World, u: UserId, p: string)
    requires FreeStep(w, before, e, w') && Sets(w, e, u, p)
    ensures e.req.CreateUser? || u in w.tables.users
  {
    hide FreeStep, Committed;
    if e.req.SetUserPassword? {
      ResetsVisible(w, before, e, w', u);
    }
  }

  /**
   * From the registration or change of password that set `p` until the next
   * change, a login of that user with another password is refused, and with `p`
   * it gets past the credentials.
   */
  lemma PasswordDecides(ws: seq<World>, es: seq<Event>, i: nat, j: nat, u: UserId, p: string)
    requires FreeRun(ws, es) && i < j < |es| && Sets(ws[i], es[i], u, p)
    requires forall k | i < k < j :: !Resets(ws[k], es[k], u)
    requires es[j].req.Login? && OwnsEmail(ws[j].tables, u, es[j].req.email)
    ensures es[j].req.password != p ==> Answer(ws[j], es[j]).result == Rejected(InvalidCredentials)
    ensures es[j].req.password == p ==>
      match ws[j].tables.users[u].status
      case Suspended => Answer(ws[j], es[j]).result == Rejected(UserSuspended)
      case Banned => Answer(ws[j], es[j]).result == Rejected(UserBanned)
      case _ => Answer(ws[j], es[j]).result.LoggedIn? && Answer(ws[j], es[j]).result.info.id == u
  {
    hide FreeStep, Initial, Sets, Resets, Answer, Inv, Bare;
    PasswordHolds(ws, es, i, j, u, p);
    FreeReachable(ws, es, j);
    BareTables(ws[j], ClockBefore(es, j));
    LoginOutcome(ws[j], es[j], u);
  }

  // ---- The age of tokens ----------------------------------------------------------------------

  /** A request hands out at most its own answer's pair, for the session it created. */
  lemma PlanIssues(w: World, e: Event, i: nat)
    requires i < |Answer(w, e).effects| && Answer(w, e).effects[i].Issue?
    ensures Creates(w, e) && (e.req.Login? || e.req.RefreshToken?)
    ensures Answer(w, e).effects[i] == Issue(e.req.newId, Answer(w, e).result.pair)
  {
    hide *;
    if e.req.Gate? {
      GatePuts(w, e);
    } else {
      AnswerIsPlan(w, e);
      NotCreating(w, e);
      if e.req.Login? {
        LoginAnswer(w, e);
        LoginIssues(w, e, i);
      } else if e.req.RefreshToken? && Answer(w, e).result.Rotated? {
        RotationTokens(w, e);
        RotationEffects(w, e);
        var s, claims := e.req.token.claims.jti.value, e.req.token.claims;
        RotationIssues(s, w.tables.sessions[s], claims.sub, e.req.ip, e.req.newId, e.clock, i);
      } else {
        OthersIssueNothing(w, e);
      }
    }
  }

  lemma LoginIssues(w: World, e: Event, i: nat)
    requires e.req.Login? && i < |PlanOf(w, e)| && PlanOf(w, e)[i].Issue?
    ensures FindByEmail(w.tables, e.req.email).Some?
    ensures PlanOf(w, e)[i] == Issue(e.req.newId, LoginPair(FindByEmail(w.tables, e.req.email).value, e.req.newId, e.clock))
  {
    hide LoginDelta, LoginPair, LoginRow, EntryFor, Evicted, SessionKeys, FindByEmail;
  }

  lemma RotationIssues(s: SessionId, row: Session, sub: UserId, ip: Option<string>, newId: SessionId, c: Clock, i: nat)
    requires i < |RotationPlan(s, row, sub, ip, newId, c)| && RotationPlan(s, row, sub, ip, newId, c)[i].Issue?
    ensures RotationPlan(s, row, sub, ip, newId, c)[i] == Issue(newId, RotatedPair(row, sub, newId, c))
  {
    hide RotationDelta, RotatedPair, RotatedRow, EntryFor;
  }

  lemma OthersIssueNothing(w: World, e: Event)
    requires !e.req.Gate? && !e.req.Login? && !(e.req.RefreshToken? && Answer(w, e).result.Rotated?)
    ensures forall i | 0 <= i < |PlanOf(w, e)| :: !PlanOf(w, e)[i].Issue?
  {
    hide Answer, RevokeAll, LogoutRevoke, PurgeKeys, NewUser, RotationPlan;
  }

  lemma {:induction false} IssuedFrom(w: World, es: seq<Effect>, n: SessionId)
    requires n in Play(w, es).issued
    ensures (n in w.issued && w.issued[n] == Play(w, es).issued[n])
         || exists i :: 0 <= i < |es| && es[i] == Issue(n, Play(w, es).issued[n])
  {
    if es != [] {
      var front := es[..|es| - 1];
      if es[|es| - 1].Issue? && es[|es| - 1].session == n {
        assert es[|es| - 1] == Issue(n, Play(w, es).issued[n]);
      } else {
        IssuedFrom(w, front, n);
        if i :| 0 <= i < |front| && front[i] == Issue(n, Play(w, front).issued[n]) {
          assert es[i] == front[i];
        }
      }
    }
  }

  lemma StepIssues(w: World, before: Time, e: Event, w': World, n: SessionId)
    requires FreeStep(w, before, e, w') && n in w'.issued
    ensures (n in w.issued && w.issued[n] == w'.issued[n])
         || (Creates(w, e) && (e.req.Login? || e.req.RefreshToken?) && e.req.newId == n && Answer(w, e).result.pair == w'.issued[n])
  {
    hide *;
    FreeParts(w, before, e, w');
    var es := Answer(w, e).effects;
    BareIs(w');
    BareIs(Play(w, es[..e.done]));
    IssuedFrom(w, es[..e.done], n);
    if i :| 0 <= i < e.done && es[..e.done][i] == Issue(n, Play(w, es[..e.done]).issued[n]) {
      assert es[i] == es[..e.done][i];
      PlanIssues(w, e, i);
    }
  }

  /** The request that handed out the pair of session `n`. */
  ghost predicate Origin(ws: seq<World>, es: seq<Event>, i: nat, n: SessionId, pair: TokenPair) {
    && i < |es| && i < |ws|
    && Creates(ws[i], es[i]) && (es[i].req.Login? || es[i].req.RefreshToken?)
    && es[i].req.newId == n && Answer(ws[i], es[i]).result.pair == pair
  }

  /** Every pair in circulation is the answer to some earlier login or refresh. */
  lemma {:induction false} PairsHaveOrigins(ws: seq<World>, es: seq<Event>, j: nat, n: SessionId)
    requires FreeRun(ws, es) && j <= |es| && n in ws[j].issued
    ensures exists i :: 0 <= i < j && Origin(ws, es, i, n, ws[j].issued[n])
  {
    hide FreeStep, Initial, Creates, Answer;
    if j == 0 {
      NoneIssued(ws[0]);
    } else {
      StepIssues(ws[j - 1], ClockBefore(es, j - 1), es[j - 1], ws[j], n);
      if n in ws[j - 1].issued && ws[j - 1].issued[n] == ws[j].issued[n] {
        PairsHaveOrigins(ws, es, j - 1, n);
      } else {
        assert Origin(ws, es, j - 1, n, ws[j].issued[n]);
      }
    }
  }

  lemma NoneIssued(w: World)
    requires Initial(Bare(w))
    ensures w.issued == map[]
  {
  }

  /** The access token of a login or refresh expires thirty minutes after it is minted. */
  lemma MintedFor(w: World, before: Time, e: Event)
    requires UniqueNames(w.tables) && Inputs(w, before, e) && Creates(w, e)
    ensures
      var access := Answer(w, e).result.pair.access;
      access.kind == Access && access.exp == e.clock.mintAccess + 1_800_000_000
  {
    hide Answer, IsActiveList;
    CreatedKinds(w, e);
    if e.req.Login? {
      LoginAnswer(w, e);
      var u := Answer(w, e).result.info.id;
      assert OwnsEmail(w.tables, u, e.req.email);
      LoginOutcome(w, e, u);
    } else {
      RotationOutcome(w, e);
    }
  }

  /**
   * Whoever the gate admits, whatever is cached, holds the access token of a
   * login or refresh minted less than thirty minutes and a second ago.
   */
  lemma AdmittedRecently(ws: seq<World>, es: seq<Event>, j: nat, r: Reads, q: Request, c: Clock)
    requires FreeRun(ws, es) && j <= |es| && q.Gate? && Presentable(ws[j], q.token)
    requires ServeGate(ws[j].tables, r, q, c).result.Admitted?
    ensures exists i, n, pair :: 0 <= i < j && Origin(ws, es, i, n, pair) && q.token == Signed(pair.access)
              && c.decode < es[i].clock.mintAccess + 1_801_000_000
  {
    hide FreeStep, Initial, Inv, Answer, Creates, ServeGate, Bare;
    GateNeedsLiveToken(ws[j].tables, r, q, c);
    var n :| n in ws[j].issued && (q.token.claims == ws[j].issued[n].access || q.token.claims == ws[j].issued[n].refresh);
    FreeReachable(ws, es, j);
    IssuedOwned(ws[j], ClockBefore(es, j), n);
    PairsHaveOrigins(ws, es, j, n);
    var i :| 0 <= i < j && Origin(ws, es, i, n, ws[j].issued[n]);
    FreeReachable(ws, es, i);
    BareTables(ws[i], ClockBefore(es, i));
    FreeParts(ws[i], ClockBefore(es, i), es[i], ws[i + 1]);
    MintedFor(ws[i], ClockBefore(es, i), es[i]);
  }

  /** ... and up to thirty minutes after it was minted, no token is refused as expired. */
  lemma TokenServesHalfHour(t: Tables, r: Reads, u: UserId, n: SessionId, c: Clock, later: Clock)
    ensures
      var token := Signed(CreateAccessToken(u, n, c.mintAccess));
      && FreshAccess(token.claims, u, n, c)
      && (later.decode <= c.mintAccess + 1_800_000_000 ==> ServeGate(t, r, Gate(token), later).result != Rejected(InvalidToken))
      && (c.mintAccess + 1_801_000_000 <= later.decode ==> ServeGate(t, r, Gate(token), later).result == Rejected(InvalidToken))
  {
    hide ServeGate;
    GateNeedsLiveToken(t, r, Gate(Signed(CreateAccessToken(u, n, c.mintAccess))), later);
  }
}
