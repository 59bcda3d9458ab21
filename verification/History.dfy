/** What whole runs keep: revocations, statuses, the number of sessions, and their lifetimes. */
module History {
  import opened Types
  import opened Tokens
  import opened Store
  import opened Protocol
  import opened Invariants
  import opened Commits
  import opened Requests
  import opened Runs
  import opened Transactions
  import opened FreeRuns
  import opened Gatekeeping

  // ---- Evolution along a run ----------------------------------------------------------

  lemma Unchanged(t: Tables)
    ensures SessionsEvolve(t, t) && UsersStep(t, t)
  {
  }

  lemma StepEvolves(w: World, before: Time, e: Event, w': World)
    requires Inv(w, before) && Step(w, before, e, w')
    ensures SessionsEvolve(w.tables, w'.tables) && UsersStep(w.tables, w'.tables)
  {
    hide *;
    StepTables(w, before, e, w');
    Unchanged(w.tables);
    if w'.tables != w.tables {
      var d, i :| Publishes(w, before, e, d, i) && e.done > i && w'.tables == ApplyDelta(w.tables, d);
      PublishesParts(w, before, e, d, i);
      CommitEvolves(w.tables, d, before, e.clock.end);
    }
  }

  lemma FreeStepEvolves(w: World, before: Time, e: Event, w': World)
    requires Inv(Bare(w), before) && FreeStep(w, before, e, w')
    ensures SessionsEvolve(w.tables, w'.tables) && UsersStep(w.tables, w'.tables)
  {
    hide *;
    FreeStepCases(w, before, e, w');
    BareIs(w);
    BareIs(w');
    if e.req.Gate? || e.done == 0 {
      Unchanged(w.tables);
    } else {
      StepEvolves(Bare(w), before, Plain(w, e), Bare(w'));
    }
  }

  lemma EvolveTransitive(a: Tables, b: Tables, c: Tables)
    requires SessionsEvolve(a, b) && SessionsEvolve(b, c)
    ensures SessionsEvolve(a, c)
  {
  }

  lemma {:induction false} RunEvolves(ws: seq<World>, es: seq<Event>, i: nat, j: nat)
    requires FreeRun(ws, es) && i <= j <= |es|
    ensures SessionsEvolve(ws[i].tables, ws[j].tables)
    decreases j
  {
    hide Inv, FreeStep, Initial, SessionsEvolve, Bare;
    if i == j {
      Unchanged(ws[i].tables);
    } else {
      RunEvolves(ws, es, i, j - 1);
      FreeReachable(ws, es, j - 1);
      FreeStepEvolves(ws[j - 1], ClockBefore(es, j - 1), es[j - 1], ws[j]);
      EvolveTransitive(ws[i].tables, ws[j - 1].tables, ws[j].tables);
    }
  }

  // ---- Revocation is final ---------------------------------------------------------------

  /** A revoked session keeps its first `revoked_at`. */
  lemma RevocationFinal(ws: seq<World>, es: seq<Event>, i: nat, j: nat, s: SessionId)
    requires FreeRun(ws, es) && i <= j <= |es|
    requires s in ws[i].tables.sessions && ws[i].tables.sessions[s].revokedAt.Some?
    ensures s in ws[j].tables.sessions && ws[j].tables.sessions[s] == ws[i].tables.sessions[s]
  {
    hide FreeStep, Initial;
    RunEvolves(ws, es, i, j);
  }

  /** ... its access token is refused ever after ... */
  lemma RevokedNeverAdmitted(ws: seq<World>, es: seq<Event>, i: nat, j: nat, s: SessionId, r: Reads, q: Request, c: Clock)
    requires Run(ws, es) && i <= j <= |es|
    requires s in ws[i].tables.sessions && ws[i].tables.sessions[s].revokedAt.Some?
    requires q.Gate? && q.token.Signed? && q.token.claims.sid == Some(s)
    requires Ordered(c) && ClockBefore(es, j) < c.begin && SeesSessions(r, ws[j])
    ensures !ServeGate(ws[j].tables, r, q, c).result.Admitted?
  {
    hide Step, Initial, Inv, Ordered, SeesSessions, ServeGate, FreeRun;
    RunIsFree(ws, es);
    RevocationFinal(ws, es, i, j, s);
    Reachable(ws, es, j);
    if ServeGate(ws[j].tables, r, q, c).result.Admitted? {
      AdmittedHolds(ws[j], ClockBefore(es, j), r, q, c);
    }
  }

  /** ... and its refresh token creates no session. */
  lemma RevokedNeverRotates(ws: seq<World>, es: seq<Event>, i: nat, j: nat, s: SessionId)
    requires FreeRun(ws, es) && i <= j < |es|
    requires s in ws[i].tables.sessions && ws[i].tables.sessions[s].revokedAt.Some?
    requires es[j].req.RefreshToken? && es[j].req.token.Signed? && es[j].req.token.claims.jti == Some(s)
    ensures !Creates(ws[j], es[j])
    ensures ws[j + 1].tables.sessions.Keys == ws[j].tables.sessions.Keys
  {
    hide FreeStep, Initial, Inv, Answer, Creates, RevokesFirst, Bare;
    var w, e, before := ws[j], es[j], ClockBefore(es, j);
    RevocationFinal(ws, es, i, j, s);
    FreeReachable(ws, es, j);
    FreeParts(w, before, e, ws[j + 1]);
    BareTables(w, before);
    RefreshShape(w, e, before);
    RefreshAnswer(w, e);
    NotCreating(w, e);
    FreeStepCreates(w, before, e, ws[j + 1]);
  }

  // ---- Conservation --------------------------------------------------------------------------

  function Roots(t: Tables): set<SessionId> {
    set s | s in t.sessions && t.sessions[s].previous.None?
  }

  lemma CommittedIs(w: World, before: Time, e: Event, d: Delta, i: nat)
    requires Publishes(w, before, e, d, i) && e.done <= |Answer(w, e).effects|
    ensures Committed(w, e) <==> e.done > i
  {
    hide Answer, GoodDelta, CreatesMatch;
    var es := Answer(w, e).effects;
    forall k | 0 <= k < i ensures !es[k].Commit? {
      assert es[..i][k] == es[k];
    }
  }

  lemma DeltaKeys(t: Tables, d: Delta)
    requires forall s | s in d.insert :: s !in t.sessions
    ensures ApplyDelta(t, d).sessions.Keys == t.sessions.Keys + d.insert.Keys
    ensures Roots(ApplyDelta(t, d)) == Roots(t) + (set s | s in d.insert && d.insert[s].previous.None?)
  {
  }

  lemma GoodInserts(t: Tables, d: Delta, before: Time, now: Time)
    requires GoodDelta(t, d, before, now)
    ensures forall s | s in d.insert :: s !in t.sessions
  {
  }

  /** The sessions after a request: those before, and the one a committed login or rotation creates. */
  lemma StepCreates(w: World, before: Time, e: Event, w': World)
    requires Inv(w, before) && Step(w, before, e, w')
    ensures Creates(w, e) ==> (e.req.Login? || e.req.RefreshToken?) && e.req.newId !in w.tables.sessions
    ensures Answer(w, e).result.LoggedIn? ==> Creates(w, e)
    ensures w'.tables.sessions.Keys == w.tables.sessions.Keys + (if Creates(w, e) && Committed(w, e) then {e.req.newId} else {})
    ensures Roots(w'.tables) == Roots(w.tables) + (if Answer(w, e).result.LoggedIn? && Committed(w, e) then {e.req.newId} else {})
  {
    hide Inv, Step, Answer, ApplyDelta, Roots, Committed, GoodDelta, Publishes, Run;
    StepParts(w, before, e, w');
    EventPublishes(w, e, before);
    StepTables(w, before, e, w');
    if d, i :| Publishes(w, before, e, d, i) {
      PublishesParts(w, before, e, d, i);
      CommittedIs(w, before, e, d, i);
      GoodInserts(w.tables, d, before, e.clock.end);
      DeltaKeys(w.tables, d);
    } else {
      assert w'.tables == w.tables;
    }
  }

  /** Nothing cached changes whether a request got to its commit, or what it creates. */
  lemma CommittedPlain(w: World, before: Time, e: Event)
    requires Inputs(w, before, e) && e.done <= |Answer(w, e).effects|
    ensures e.req.Gate? || e.done == 0 ==> !Committed(w, e)
    ensures !e.req.Gate? && e.done != 0 ==> (Committed(w, e) <==> Committed(Bare(w), Plain(w, e)))
    ensures !e.req.Gate? ==> (Creates(w, e) <==> Creates(Bare(w), Plain(w, e)))
    ensures !e.req.Gate? ==> (Answer(w, e).result.LoggedIn? <==> Answer(Bare(w), Plain(w, e)).result.LoggedIn?)
  {
    hide Answer, Inputs, Bare;
    PlainParts(w, e);
    if e.req.Gate? {
      GatePuts(w, e);
    } else if e.done == 0 {
      SameEffects(w, Bare(w), e, Plain(w, e));
    } else {
      SameEffects(w, Bare(w), e, Plain(w, e));
      PlainRevokes(w, e);
      if RevokesFirst(Bare(w), Plain(w, e)) {
        RevokesAtOnce(Bare(w), Plain(w, e));
        assert Answer(w, e).effects[0].Commit?;
      }
    }
  }

  lemma CreatesFresh(w: World, before: Time, e: Event)
    requires Inputs(w, before, e) && Creates(w, e)
    ensures (e.req.Login? || e.req.RefreshToken?) && e.req.newId !in w.tables.sessions
  {
    hide Answer, IsActiveList, Ordered;
    CreatedKinds(w, e);
  }

  lemma FreeStepCreates(w: World, before: Time, e: Event, w': World)
    requires Inv(Bare(w), before) && FreeStep(w, before, e, w')
    ensures Creates(w, e) ==> (e.req.Login? || e.req.RefreshToken?) && e.req.newId !in w.tables.sessions
    ensures Answer(w, e).result.LoggedIn? ==> Creates(w, e)
    ensures w'.tables.sessions.Keys == w.tables.sessions.Keys + (if Creates(w, e) && Committed(w, e) then {e.req.newId} else {})
    ensures Roots(w'.tables) == Roots(w.tables) + (if Answer(w, e).result.LoggedIn? && Committed(w, e) then {e.req.newId} else {})
  {
    hide *;
    FreeParts(w, before, e, w');
    FreeStepCases(w, before, e, w');
    CommittedPlain(w, before, e);
    PlainParts(w, e);
    BareIs(w);
    BareIs(w');
    NotCreating(w, e);
    if Creates(w, e) {
      CreatesFresh(w, before, e);
    }
    if !e.req.Gate? && e.done != 0 {
      StepCreates(Bare(w), before, Plain(w, e), Bare(w'));
    }
  }

  ghost function Logins(ws: seq<World>, es: seq<Event>, n: nat): seq<SessionId>
    requires n <= |es| && |ws| == |es| + 1
  {
    if n == 0 then []
    else Logins(ws, es, n - 1) + NewLogin(ws[n - 1], es[n - 1])
  }

  ghost function Rotations(ws: seq<World>, es: seq<Event>, n: nat): seq<SessionId>
    requires n <= |es| && |ws| == |es| + 1
  {
    if n == 0 then []
    else Rotations(ws, es, n - 1) + NewRotation(ws[n - 1], es[n - 1])
  }

  /** `l` lists the roots of `t` and `r` its other sessions, none twice. */
  ghost predicate Accounts(t: Tables, l: seq<SessionId>, r: seq<SessionId>) {
    && NoDup(l) && NoDup(r)
    && (forall s :: s in l <==> s in Roots(t))
    && (forall s :: s in r <==> s in t.sessions.Keys - Roots(t))
  }

  lemma AccountsGrow(t: Tables, t': Tables, l: seq<SessionId>, r: seq<SessionId>, n: SessionId, root: bool)
    requires Accounts(t, l, r) && n !in t.sessions
    requires t'.sessions.Keys == t.sessions.Keys + {n}
    requires Roots(t') == Roots(t) + (if root then {n} else {})
    ensures Accounts(t', if root then l + [n] else l, if root then r else r + [n])
  {
    assert Roots(t) <= t.sessions.Keys;
    hide Roots;
    assert n !in l && n !in r;
    assert forall s :: s in l + [n] <==> s in l || s == n;
    assert forall s :: s in r + [n] <==> s in r || s == n;
  }

  lemma AccountsStay(t: Tables, t': Tables, l: seq<SessionId>, r: seq<SessionId>)
    requires Accounts(t, l, r) && t'.sessions.Keys == t.sessions.Keys && Roots(t') == Roots(t)
    ensures Accounts(t', l, r)
  {
    hide Roots;
  }

  /** Roots are exactly the sessions of logins, all other sessions those of rotations, none twice. */
  lemma {:induction false} SessionsAccountedFor(ws: seq<World>, es: seq<Event>, n: nat)
    requires FreeRun(ws, es) && n <= |es|
    ensures Accounts(ws[n].tables, Logins(ws, es, n), Rotations(ws, es, n))
  {
    hide Inv, FreeStep, Initial, NewLogin, NewRotation, Accounts, Bare;
    if n == 0 {
      EmptyAtFirst(ws[0]);
    } else {
      SessionsAccountedFor(ws, es, n - 1);
      FreeReachable(ws, es, n - 1);
      StepAccounts(ws[n - 1], ClockBefore(es, n - 1), es[n - 1], ws[n], Logins(ws, es, n - 1), Rotations(ws, es, n - 1));
    }
  }

  ghost function NewLogin(w: World, e: Event): seq<SessionId> {
    if Answer(w, e).result.LoggedIn? && Committed(w, e) && e.req.Login? then [e.req.newId] else []
  }

  ghost function NewRotation(w: World, e: Event): seq<SessionId> {
    if Answer(w, e).result.Rotated? && Committed(w, e) && e.req.RefreshToken? then [e.req.newId] else []
  }

  lemma StepAccounts(w: World, before: Time, e: Event, w': World, l: seq<SessionId>, r: seq<SessionId>)
    requires Inv(Bare(w), before) && FreeStep(w, before, e, w') && Accounts(w.tables, l, r)
    ensures Accounts(w'.tables, l + NewLogin(w, e), r + NewRotation(w, e))
  {
    hide Inv, FreeStep, Answer, Committed, Accounts, Roots, Creates, Bare;
    FreeStepCreates(w, before, e, w');
    CreatedKinds(w, e);
    NotCreating(w, e);
    assert l + [] == l && r + [] == r;
    if Creates(w, e) && Committed(w, e) {
      AccountsGrow(w.tables, w'.tables, l, r, e.req.newId, Answer(w, e).result.LoggedIn?);
    } else {
      AccountsStay(w.tables, w'.tables, l, r);
    }
  }

  lemma EmptyAtFirst(w: World)
    requires Initial(Bare(w))
    ensures Accounts(w.tables, [], [])
  {
  }

  lemma CreatedKinds(w: World, e: Event)
    ensures Answer(w, e).result.LoggedIn? ==> e.req.Login?
    ensures Answer(w, e).result.Rotated? ==> e.req.RefreshToken?
  {
    hide Answer;
    if e.req.Login? {
      LoginAnswer(w, e);
    } else if e.req.RefreshToken? {
      RefreshAnswer(w, e);
    } else {
      PlainAnswer(w, e);
      NotCreating(w, e);
    }
  }

  /** The number of session rows is the number of logins plus the number of rotations. */
  lemma Conservation(ws: seq<World>, es: seq<Event>, n: nat)
    requires FreeRun(ws, es) && n <= |es|
    ensures |ws[n].tables.sessions| == |Logins(ws, es, n)| + |Rotations(ws, es, n)|
  {
    hide FreeStep, Initial, Answer, Committed, Roots, Logins, Rotations;
    SessionsAccountedFor(ws, es, n);
    var all, roots := ws[n].tables.sessions.Keys, Roots(ws[n].tables);
    SeqSetSize(Logins(ws, es, n));
    SeqSetSize(Rotations(ws, es, n));
    assert roots == set s | s in Logins(ws, es, n);
    assert all - roots == set s | s in Rotations(ws, es, n);
    assert roots <= all by { RootsWithin(ws[n].tables); }
    assert all == roots + (all - roots);
  }

  lemma RootsWithin(t: Tables)
    ensures Roots(t) <= t.sessions.Keys
  {
  }

  // ---- Statuses ---------------------------------------------------------------------------------

  /** A user's statuses along a run stay put or move along one of the six edges of the machine. */
  lemma StatusPath(ws: seq<World>, es: seq<Event>, i: nat, u: UserId)
    requires FreeRun(ws, es) && i < |es| && u in ws[i].tables.users
    ensures u in ws[i + 1].tables.users
    ensures
      var was, now := ws[i].tables.users[u].status, ws[i + 1].tables.users[u].status;
      || now == was
      || (was == PendingVerification && (now == Active || now == Banned))
      || (was == Active && (now == Suspended || now == Banned))
      || (was == Suspended && (now == Active || now == Banned))
  {
    hide Inv, FreeStep, Initial, Bare;
    FreeReachable(ws, es, i);
    FreeStepEvolves(ws[i], ClockBefore(es, i), es[i], ws[i + 1]);
  }

  /** Pending verification is never re-entered; a ban and a deletion are for good. */
  predicate Absorbs(a: User, b: User) {
    && (a.status != PendingVerification ==> b.status != PendingVerification)
    && (a.status == Banned ==> b.status == Banned)
    && (a.deletedAt.Some? ==> b.deletedAt == a.deletedAt && b.status == a.status)
  }

  lemma StepAbsorbs(t: Tables, t': Tables, u: UserId)
    requires UsersStep(t, t') && u in t.users
    ensures u in t'.users && Absorbs(t.users[u], t'.users[u])
  {
  }

  /** Nobody re-enters PENDING_VERIFICATION; a ban and a deletion are for good. */
  lemma {:induction false} StatusAbsorbing(ws: seq<World>, es: seq<Event>, i: nat, j: nat, u: UserId)
    requires FreeRun(ws, es) && i <= j <= |es| && u in ws[i].tables.users
    ensures u in ws[j].tables.users
    ensures Absorbs(ws[i].tables.users[u], ws[j].tables.users[u])
    decreases j
  {
    hide Inv, FreeStep, Initial, Bare, UsersStep, SessionsEvolve;
    if i < j {
      StatusAbsorbing(ws, es, i, j - 1, u);
      FreeReachable(ws, es, j - 1);
      FreeStepEvolves(ws[j - 1], ClockBefore(es, j - 1), es[j - 1], ws[j]);
      StepAbsorbs(ws[j - 1].tables, ws[j].tables, u);
    }
  }

  /** A login is only ever answered for a user in good standing. */
  lemma LoginNeedsStanding(w: World, e: Event)
    requires e.req.Login? && Answer(w, e).result.LoggedIn?
    ensures Answer(w, e).result.info.id in w.tables.users && MayHold(w.tables.users[Answer(w, e).result.info.id])
  {
    hide LoginPlan, LoginPair;
  }

  /** After a ban or a deletion that user's logins and rotations all fail, whatever is cached and wherever requests stop. */
  lemma BarredForever(ws: seq<World>, es: seq<Event>, i: nat, j: nat, u: UserId)
    requires FreeRun(ws, es) && i <= j < |es| && u in ws[i].tables.users
    requires ws[i].tables.users[u].status == Banned || ws[i].tables.users[u].deletedAt.Some?
    ensures es[j].req.Login? && Answer(ws[j], es[j]).result.LoggedIn? ==> Answer(ws[j], es[j]).result.info.id != u
    ensures es[j].req.RefreshToken? && es[j].req.token.Signed? && es[j].req.token.claims.sub == u ==>
              Answer(ws[j], es[j]).result.Rejected? || Answer(ws[j], es[j]).result.Replayed?
  {
    hide Inv, FreeStep, Initial, Answer, Bare;
    var w, e, before := ws[j], es[j], ClockBefore(es, j);
    StatusAbsorbing(ws, es, i, j, u);
    FreeReachable(ws, es, j);
    FreeParts(w, before, e, ws[j + 1]);
    assert !MayHold(w.tables.users[u]);
    if e.req.Login? && Answer(w, e).result.LoggedIn? {
      LoginNeedsStanding(w, e);
    } else if e.req.RefreshToken? && e.req.token.Signed? && e.req.token.claims.sub == u {
      RefreshRefusesLockedOut(w, before, e);
    }
  }

  /** With an honest cache, their gate calls fail too, and whatever pair is replayed to them is dead. */
  lemma BarredFromGates(ws: seq<World>, es: seq<Event>, i: nat, j: nat, u: UserId)
    requires Run(ws, es) && i <= j < |es| && u in ws[i].tables.users
    requires ws[i].tables.users[u].status == Banned || ws[i].tables.users[u].deletedAt.Some?
    ensures es[j].req.Gate? && es[j].req.token.Signed? && es[j].req.token.claims.sub == u ==>
              !Answer(ws[j], es[j]).result.Admitted?
    ensures es[j].req.RefreshToken? && es[j].req.token.Signed? && es[j].req.token.claims.sub == u && Answer(ws[j], es[j]).result.Replayed? ==>
              DeadPair(ws[j].tables, Answer(ws[j], es[j]).result.pair, u)
  {
    hide Inv, Step, Initial, Answer, Ordered, RevokesFirst, Submap, FreeRun, DeadPair, Bare;
    var w, e, before := ws[j], es[j], ClockBefore(es, j);
    RunIsFree(ws, es);
    StatusAbsorbing(ws, es, i, j, u);
    Reachable(ws, es, j);
    StepParts(w, before, e, ws[j + 1]);
    assert !MayHold(w.tables.users[u]);
    if e.req.Gate? && e.req.token.Signed? && e.req.token.claims.sub == u {
      SubmapSees(e.seen, w);
      AnswerGate(w, e);
      GateRefusesLockedOut(w, before, e.seen, e.req, e.clock);
    } else if e.req.RefreshToken? && e.req.token.Signed? && e.req.token.claims.sub == u {
      FreeReachable(ws, es, j);
      GraceOfInv(w, before);
      RefreshRefusesLockedOut(w, before, e);
    }
  }

  lemma GraceOfInv(w: World, now: Time)
    requires Inv(w, now)
    ensures GraceExact(w)
  {
  }

  // ---- Tokens issued before a lockout ----------------------------------------------------------

  /** Tokens issued to a user before a lockout rotate nothing from then on, reactivated or not ... */
  lemma OldTokensNeverRotate(ws: seq<World>, es: seq<Event>, i: nat, j: nat, n: SessionId)
    requires FreeRun(ws, es) && i <= j < |es| && n in ws[i].issued
    requires ws[i].issued[n].refresh.sub in ws[i].tables.users && !MayHold(ws[i].tables.users[ws[i].issued[n].refresh.sub])
    requires es[j].req.RefreshToken? && es[j].req.token == Signed(ws[i].issued[n].refresh)
    ensures !Creates(ws[j], es[j])
    ensures ws[j + 1].tables.sessions.Keys == ws[j].tables.sessions.Keys
  {
    hide FreeStep, Initial, Inv, Creates, Bare, MayHold;
    FreeReachable(ws, es, i);
    IssuedOwned(ws[i], ClockBefore(es, i), n);
    LockoutIsAuthoritative(ws, es, i, ws[i].issued[n].refresh.sub);
    RevokedNeverRotates(ws, es, i, j, n);
  }

  /** ... and, with an honest cache, admit to nothing. */
  lemma OldTokensNeverAdmitted(ws: seq<World>, es: seq<Event>, i: nat, j: nat, n: SessionId, r: Reads, c: Clock)
    requires Run(ws, es) && i <= j <= |es| && n in ws[i].issued
    requires ws[i].issued[n].access.sub in ws[i].tables.users && !MayHold(ws[i].tables.users[ws[i].issued[n].access.sub])
    requires Ordered(c) && ClockBefore(es, j) < c.begin && SeesSessions(r, ws[j])
    ensures !ServeGate(ws[j].tables, r, Gate(Signed(ws[i].issued[n].access)), c).result.Admitted?
  {
    hide Step, Initial, Inv, FreeRun, Bare, MayHold, ServeGate, SeesSessions, Ordered;
    RunIsFree(ws, es);
    FreeReachable(ws, es, i);
    IssuedOwned(ws[i], ClockBefore(es, i), n);
    LockoutIsAuthoritative(ws, es, i, ws[i].issued[n].access.sub);
    RevokedNeverAdmitted(ws, es, i, j, n, r, Gate(Signed(ws[i].issued[n].access)), c);
  }

  lemma IssuedOwned(w: World, now: Time, n: SessionId)
    requires Inv(Bare(w), now) && n in w.issued
    ensures n in w.tables.sessions && PairFor(w.issued[n], w.tables.sessions[n].userId, n)
  {
    hide TablesOk, PairFor;
  }

  lemma SubmapSees(r: Reads, w: World)
    requires Submap(r.cache, w.cache)
    ensures SeesSessions(r, w)
  {
  }
}
