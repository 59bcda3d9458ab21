/**
 * Runs of atomic requests. A request may be stopped after any of its effects
 * and cache entries may vanish at any time; only the requests that commit
 * before they purge must finish.
 */
module Runs {
  import opened Types
  import opened Tokens
  import opened Store
  import opened Protocol
  import opened Invariants
  import opened Commits
  import opened Requests

  /** One request: what it asked, what its reads answered, its clock, and how many of its effects took place. */
  datatype Event = Event(req: Request, seen: Reads, clock: Clock, done: nat)

  ghost function Answer(w: World, e: Event): Served {
    Serve(w.tables, e.seen, e.req, e.clock)
  }

  /** Only tokens this server handed out carry its signature. */
  ghost predicate Presentable(w: World, token: Bearer) {
    token.Signed? ==> exists n :: n in w.issued && (token.claims == w.issued[n].access || token.claims == w.issued[n].refresh)
  }

  /** Identifiers drawn for new rows are new. */
  ghost predicate FreshIds(w: World, q: Request) {
    match q
    case CreateUser(id, _, _, _, _) => id !in w.tables.users
    case Login(_, _, _, _, newId) => newId !in w.tables.sessions
    case RefreshToken(_, _, newId) => newId !in w.tables.sessions
    case _ => true
  }

  ghost predicate TokenOk(w: World, q: Request) {
    match q
    case RefreshToken(token, _, _) => Presentable(w, token)
    case Gate(token) => Presentable(w, token)
    case _ => true
  }

  /** `logout`, `logout_all` and the breach path publish revocations before purging the cache. */
  ghost predicate RevokesFirst(w: World, e: Event) {
    || e.req.Logout? || e.req.LogoutAll?
    || (e.req.RefreshToken? && Answer(w, e).result == Rejected(ReuseDetected))
  }

  ghost predicate Inputs(w: World, before: Time, e: Event) {
    && Ordered(e.clock) && before < e.clock.begin
    && FreshIds(w, e.req) && TokenOk(w, e.req)
    && (Queried(w.tables, e.req, e.clock).Some? ==>
          IsActiveList(e.seen.active, w.tables, Queried(w.tables, e.req, e.clock).value, e.clock.query))
  }

  ghost predicate Finished(w: World, e: Event) {
    e.done == |Answer(w, e).effects|
  }

  ghost predicate Admissible(w: World, before: Time, e: Event) {
    && Inputs(w, before, e)
    && Submap(e.seen.cache, w.cache)
    && e.done <= |Answer(w, e).effects|
    && (RevokesFirst(w, e) ==> Finished(w, e))
  }

  /** The request takes place; afterwards any cache entries may have vanished. */
  ghost predicate Step(w: World, before: Time, e: Event, w': World) {
    && Admissible(w, before, e)
    && Below(w', Play(w, Answer(w, e).effects[..e.done]))
  }

  ghost function ClockBefore(es: seq<Event>, i: nat): Time
    requires i <= |es|
  {
    if i == 0 then 0 else es[i - 1].clock.end
  }

  ghost predicate Run(ws: seq<World>, es: seq<Event>) {
    && |ws| == |es| + 1
    && Initial(ws[0])
    && forall i | 0 <= i < |es| :: Step(ws[i], ClockBefore(es, i), es[i], ws[i + 1])
  }

  // ---- Presented tokens ---------------------------------------------------------------

  /** A refresh token that decodes names a committed session of its own subject. */
  lemma RefreshNames(w: World, claims: Claims)
    requires TokensOwned(w) && Presentable(w, Signed(claims)) && claims.kind == Refresh
    ensures claims.jti.Some? && claims.jti.value in w.tables.sessions
    ensures w.tables.sessions[claims.jti.value].userId == claims.sub
  {
    var n :| n in w.issued && (claims == w.issued[n].access || claims == w.issued[n].refresh);
    assert PairFor(w.issued[n], w.tables.sessions[n].userId, n);
  }

  // ---- Every request keeps the invariant --------------------------------------------------

  lemma SafeNothing(w: World, before: Time, now: Time)
    requires Inv(w, before) && before <= now
    ensures Safe(w, [], now)
  {
    hide *;
    InvLater(w, before, now);
    PlayNothing(w);
    NothingSafe(w, now);
  }

  lemma PlayNothing(w: World)
    ensures Play(w, []) == w
  {
  }

  lemma NothingSafe(w: World, now: Time)
    requires Inv(w, now)
    ensures Safe(w, [], now)
  {
    hide Inv;
  }

  lemma SafeLast(w: World, es: seq<Effect>, now: Time)
    requires Safe(w, es, now)
    ensures Inv(Play(w, es), now)
  {
    hide Inv, Play;
    assert es[..|es|] == es;
  }

  lemma SafeAt(w: World, es: seq<Effect>, k: nat, now: Time)
    requires Safe(w, es, now) && k <= |es|
    ensures Inv(Play(w, es[..k]), now)
  {
    hide Inv, Play;
  }

  lemma LoginShape(w: World, e: Event, before: Time)
    requires Inputs(w, before, e) && e.req.Login?
    ensures
      || Answer(w, e).effects == []
      || (&& FindByEmail(w.tables, e.req.email).Some?
          && var u := FindByEmail(w.tables, e.req.email).value;
             && u in w.tables.users && MayHold(w.tables.users[u])
             && IsActiveList(e.seen.active, w.tables, u, e.clock.query)
             && e.req.newId !in w.tables.sessions
             && Answer(w, e).effects == LoginPlan(u, e.seen.active, e.req.device, e.req.ip, e.req.newId, e.clock))
  {
    hide LoginPlan, IsActiveList, Ordered;
  }

  lemma LoginEventSafe(w: World, e: Event, before: Time)
    requires Inv(w, before) && Inputs(w, before, e) && e.req.Login?
    ensures Safe(w, Answer(w, e).effects, e.clock.end)
  {
    hide *;
    InputsClock(w, e, before);
    LoginShape(w, e, before);
    if Answer(w, e).effects == [] {
      SafeNothing(w, before, e.clock.end);
    } else {
      LoginSafe(w, FindByEmail(w.tables, e.req.email).value, e.seen.active, e.req.device, e.req.ip, e.req.newId, e.clock, before);
    }
  }

  lemma InputsClock(w: World, e: Event, before: Time)
    requires Inputs(w, before, e)
    ensures Ordered(e.clock) && before < e.clock.begin <= e.clock.query <= e.clock.end && before < e.clock.check <= e.clock.end
  {
  }

  /** The three things a refresh can do to the stores: nothing, rotate, or answer a breach. */
  lemma RefreshShape(w: World, e: Event, before: Time)
    requires TokensOwned(w) && Inputs(w, before, e) && e.req.RefreshToken?
    ensures Answer(w, e).effects == [] || e.req.token.Signed?
    ensures Answer(w, e).effects != [] ==>
      var claims := e.req.token.claims;
      && claims.jti.Some? && claims.jti.value in w.tables.sessions
      && w.tables.sessions[claims.jti.value].userId == claims.sub
      && e.req.newId !in w.tables.sessions
      && IsActiveList(e.seen.active, w.tables, claims.sub, e.clock.query)
    ensures Answer(w, e).effects != [] && !RevokesFirst(w, e) ==>
      var s := e.req.token.claims.jti.value;
      var row := w.tables.sessions[s];
      && row.revokedAt.None? && e.clock.check <= row.expiresAt
      && Answer(w, e).effects == RotationPlan(s, row, row.userId, e.req.ip, e.req.newId, e.clock)
      && Answer(w, e).result == Rotated(RotatedPair(row, row.userId, e.req.newId, e.clock))
    ensures Answer(w, e).effects != [] && RevokesFirst(w, e) ==>
      var claims := e.req.token.claims;
      && w.tables.sessions[claims.jti.value].revokedAt.Some?
      && !InGrace(w.tables.sessions[claims.jti.value], e.clock.check)
      && Answer(w, e).effects == LogoutAllPlan(RevokeAll(w.tables, claims.sub, e.clock.revoke), e.seen.active)
    ensures Answer(w, e).effects == [] ==> !RevokesFirst(w, e)
  {
    hide TokensOwned, RotationPlan, IsActiveList, Ordered, RevokeAll, ReadGrace, RotatedPair, Presentable, InGrace;
    if e.req.token.Signed? && e.req.token.claims.kind == Refresh {
      RefreshNames(w, e.req.token.claims);
    }
  }

  lemma OwnedTokens(w: World, now: Time)
    requires Inv(w, now)
    ensures TokensOwned(w)
  {
  }

  lemma RefreshEventSafe(w: World, e: Event, before: Time)
    requires Inv(w, before) && Inputs(w, before, e) && e.req.RefreshToken?
    ensures !RevokesFirst(w, e) ==> Safe(w, Answer(w, e).effects, e.clock.end)
    ensures Inv(Play(w, Answer(w, e).effects), e.clock.end)
  {
    hide *;
    InputsClock(w, e, before);
    OwnedTokens(w, before);
    RefreshShape(w, e, before);
    if Answer(w, e).effects == [] {
      SafeNothing(w, before, e.clock.end);
      SafeLast(w, [], e.clock.end);
    } else if RevokesFirst(w, e) {
      LogoutAllOk(w, e.req.token.claims.sub, e.seen.active, e.clock, before);
    } else {
      RotationSafe(w, e.req.token.claims.jti.value, e.req.ip, e.req.newId, e.clock, before);
      SafeLast(w, Answer(w, e).effects, e.clock.end);
    }
  }

  /** A user command writes nothing, or one good write, purging first if the write bars the user. */
  lemma UserShape(w: World, e: Event, before: Time)
    requires Inputs(w, before, e)
    requires e.req.CreateUser? || e.req.UpdateUser? || e.req.SetUserPassword? || e.req.ChangeStatus? || e.req.DeleteUser?
    ensures Answer(w, e).effects == []
         || exists write :: && GoodWrite(w.tables, e.req.id, write)
                            && Answer(w, e).effects == WritePlan(w, e, write)
                            && (Bars(write) ==> IsActiveList(e.seen.active, w.tables, e.req.id, e.clock.query))
  {
    hide LockoutPlan, ProfilePlan, IsActiveList, RevokeAll, Ordered;
    if Answer(w, e).effects != [] {
      var write := match e.req
        case CreateUser(_, email, username, name, password) => Create(NewUser(email, username, name, password))
        case UpdateUser(_, newEmail, newUsername) => SetProfile(newEmail, newUsername)
        case SetUserPassword(_, password) => SetPassword(HashOf(password))
        case ChangeStatus(_, status) => SetStatus(status)
        case _ => SetDeleted(e.clock.check);
      assert GoodWrite(w.tables, e.req.id, write);
      assert Answer(w, e).effects == WritePlan(w, e, write);
    }
  }

  ghost function WritePlan(w: World, e: Event, write: UserWrite): seq<Effect>
    requires e.req.CreateUser? || e.req.UpdateUser? || e.req.SetUserPassword? || e.req.ChangeStatus? || e.req.DeleteUser?
  {
    if Bars(write) then LockoutPlan(e.req.id, write, RevokeAll(w.tables, e.req.id, e.clock.revoke), e.seen.active)
    else if write.Create? then [Commit(Delta(Change(e.req.id, write), map[], map[]))]
    else ProfilePlan(e.req.id, write)
  }

  lemma UserEventSafe(w: World, e: Event, before: Time)
    requires Inv(w, before) && Inputs(w, before, e)
    requires e.req.CreateUser? || e.req.UpdateUser? || e.req.SetUserPassword? || e.req.ChangeStatus? || e.req.DeleteUser?
    ensures Safe(w, Answer(w, e).effects, e.clock.end)
  {
    hide *;
    WritePlanIs(w, e);
    InputsClock(w, e, before);
    UserShape(w, e, before);
    if Answer(w, e).effects == [] {
      SafeNothing(w, before, e.clock.end);
    } else {
      var write :| && GoodWrite(w.tables, e.req.id, write)
                   && Answer(w, e).effects == WritePlan(w, e, write)
                   && (Bars(write) ==> IsActiveList(e.seen.active, w.tables, e.req.id, e.clock.query));
      if Bars(write) {
        LockoutSafe(w, e.req.id, write, e.seen.active, e.clock, before);
      } else {
        ProfileSafe(w, e.req.id, write, before, e.clock.end);
      }
    }
  }

  lemma WritePlanIs(w: World, e: Event)
    requires e.req.CreateUser? || e.req.UpdateUser? || e.req.SetUserPassword? || e.req.ChangeStatus? || e.req.DeleteUser?
    ensures forall write | Bars(write) ::
              WritePlan(w, e, write) == LockoutPlan(e.req.id, write, RevokeAll(w.tables, e.req.id, e.clock.revoke), e.seen.active)
    ensures forall write | !Bars(write) && write.Create? ::
              WritePlan(w, e, write) == [Commit(Delta(Change(e.req.id, write), map[], map[]))]
    ensures forall write | !Bars(write) && !write.Create? :: WritePlan(w, e, write) == ProfilePlan(e.req.id, write)
  {
  }

  lemma GateEventSafe(w: World, e: Event, before: Time)
    requires Inv(w, before) && Inputs(w, before, e) && e.req.Gate?
    ensures Safe(w, Answer(w, e).effects, e.clock.end)
    ensures IdentitiesFresh(w) ==> IdentitiesFresh(Play(w, Answer(w, e).effects))
    ensures Play(w, Answer(w, e).effects).tables == w.tables
  {
    hide *;
    InputsClock(w, e, before);
    InvLater(w, before, e.clock.end);
    GateWarmsOnly(w.tables, e.seen, e.req, e.clock);
    AnswerGate(w, e);
    WarmingSafe(w, Answer(w, e).effects, e.clock, e.clock.end);
  }

  lemma AnswerGate(w: World, e: Event)
    requires e.req.Gate?
    ensures Answer(w, e) == ServeGate(w.tables, e.seen, e.req, e.clock)
  {
    hide ServeGate;
  }

  lemma AnswerLogout(w: World, e: Event)
    requires e.req.Logout? || e.req.LogoutAll?
    ensures Answer(w, e).effects ==
      if e.req.LogoutAll? then LogoutAllPlan(RevokeAll(w.tables, e.req.id, e.clock.revoke), e.seen.active)
      else if e.req.session in w.tables.sessions then LogoutPlan(e.req.session, w.tables.sessions[e.req.session], e.clock)
      else []
  {
    hide LogoutAllPlan, LogoutPlan, RevokeAll;
  }

  lemma ListQueried(w: World, e: Event, before: Time)
    requires Inputs(w, before, e) && e.req.LogoutAll?
    ensures IsActiveList(e.seen.active, w.tables, e.req.id, e.clock.query)
  {
    hide IsActiveList, Ordered;
  }

  lemma LogoutEventOk(w: World, e: Event, before: Time)
    requires Inv(w, before) && Inputs(w, before, e) && (e.req.Logout? || e.req.LogoutAll?)
    ensures Inv(Play(w, Answer(w, e).effects), e.clock.end)
    ensures IdentitiesFresh(w) ==> IdentitiesFresh(Play(w, Answer(w, e).effects))
  {
    hide *;
    InputsClock(w, e, before);
    AnswerLogout(w, e);
    if e.req.LogoutAll? {
      ListQueried(w, e, before);
      LogoutAllOk(w, e.req.id, e.seen.active, e.clock, before);
    } else if e.req.session in w.tables.sessions {
      LogoutOk(w, e.req.session, e.clock, before);
    } else {
      PlayNothing(w);
      InvLater(w, before, e.clock.end);
    }
  }

  lemma RevokesFirstKinds(w: World, e: Event)
    ensures RevokesFirst(w, e) ==> e.req.Logout? || e.req.LogoutAll? || e.req.RefreshToken?
    ensures e.req.Logout? || e.req.LogoutAll? ==> RevokesFirst(w, e)
  {
    hide Answer;
  }

  /** Whatever the request and wherever it stops, the world it leaves satisfies the invariant. */
  lemma EventKeepsInv(w: World, e: Event, before: Time)
    requires Inv(w, before) && Inputs(w, before, e)
    requires e.done <= |Answer(w, e).effects| && (RevokesFirst(w, e) ==> e.done == |Answer(w, e).effects|)
    ensures Inv(Play(w, Answer(w, e).effects[..e.done]), e.clock.end)
  {
    hide *;
    var es := Answer(w, e).effects;
    assert es[..|es|] == es;
    RevokesFirstKinds(w, e);
    match e.req {
      case Login(_, _, _, _, _) =>
        LoginEventSafe(w, e, before);
        SafeAt(w, es, e.done, e.clock.end);
      case RefreshToken(_, _, _) =>
        RefreshEventSafe(w, e, before);
        if !RevokesFirst(w, e) {
          SafeAt(w, es, e.done, e.clock.end);
        }
      case Logout(_) => LogoutEventOk(w, e, before);
      case LogoutAll(_) => LogoutEventOk(w, e, before);
      case Gate(_) =>
        GateEventSafe(w, e, before);
        SafeAt(w, es, e.done, e.clock.end);
      case _ =>
        UserEventSafe(w, e, before);
        SafeAt(w, es, e.done, e.clock.end);
    }
  }

  lemma StepParts(w: World, before: Time, e: Event, w': World)
    requires Step(w, before, e, w')
    ensures Inputs(w, before, e) && e.done <= |Answer(w, e).effects|
    ensures RevokesFirst(w, e) ==> e.done == |Answer(w, e).effects|
    ensures Below(w', Play(w, Answer(w, e).effects[..e.done]))
    ensures Submap(e.seen.cache, w.cache)
  {
    hide Answer, Inputs, RevokesFirst, Below, Play;
  }

  lemma StepKeepsInv(w: World, before: Time, e: Event, w': World)
    requires Inv(w, before) && Step(w, before, e, w')
    ensures Inv(w', e.clock.end)
  {
    hide *;
    StepParts(w, before, e, w');
    EventKeepsInv(w, e, before);
    InvBelow(w', Play(w, Answer(w, e).effects[..e.done]), e.clock.end);
  }

  /** The invariant holds in every reachable world, whatever was stopped or lost on the way. */
  lemma {:induction false} Reachable(ws: seq<World>, es: seq<Event>, i: nat)
    requires Run(ws, es) && i <= |es|
    ensures Inv(ws[i], ClockBefore(es, i))
  {
    hide Inv, Step, Initial;
    if i == 0 {
      InitialOk(ws[0]);
    } else {
      Reachable(ws, es, i - 1);
      StepKeepsInv(ws[i - 1], ClockBefore(es, i - 1), es[i - 1], ws[i]);
    }
  }
}
