/** A request publishes at most one transaction, so stopping it leaves the tables wholly before or wholly after. */
module Transactions {
  import opened Types
  import opened Tokens
  import opened Store
  import opened Protocol
  import opened Invariants
  import opened Commits
  import opened Requests
  import opened Runs

  ghost predicate NoCommit(es: seq<Effect>) {
    forall i | 0 <= i < |es| :: !es[i].Commit?
  }

  ghost predicate CommitAt(es: seq<Effect>, d: Delta, i: nat) {
    i < |es| && es[i] == Commit(d) && NoCommit(es[..i]) && NoCommit(es[i + 1..])
  }

  lemma {:induction false} NoCommitTables(w: World, es: seq<Effect>)
    requires NoCommit(es)
    ensures Play(w, es).tables == w.tables
  {
    if es != [] {
      assert forall i | 0 <= i < |es| - 1 :: es[..|es| - 1][i] == es[i];
      NoCommitTables(w, es[..|es| - 1]);
    }
  }

  /** The tables change at the commit and nowhere else. */
  lemma TablesAt(w: World, es: seq<Effect>, d: Delta, i: nat, k: nat)
    requires CommitAt(es, d, i) && k <= |es|
    ensures Play(w, es[..k]).tables == if k <= i then w.tables else ApplyDelta(w.tables, d)
  {
    hide ApplyDelta;
    if k <= i {
      assert forall j | 0 <= j < k :: es[..k][j] == es[..i][j];
      NoCommitTables(w, es[..k]);
    } else {
      var tail := es[i + 1..k];
      assert es[..k] == es[..i + 1] + tail;
      assert forall j | 0 <= j < |tail| :: tail[j] == es[i + 1..][j];
      PlayConcat(w, es[..i + 1], tail);
      NoCommitTables(Play(w, es[..i + 1]), tail);
      NoCommitTables(w, es[..i]);
      PlayNext(w, es, i);
    }
  }

  // ---- Which sessions a request creates ----------------------------------------------

  /** A login creates a chain's root, a rotation a successor, and nothing else creates a session. */
  ghost predicate CreatesMatch(w: World, e: Event, d: Delta) {
    match Answer(w, e).result
    case LoggedIn(_, info) =>
      && e.req.Login? && d.insert.Keys == {e.req.newId}
      && d.insert[e.req.newId].previous == None && d.insert[e.req.newId].userId == info.id
    case Rotated(_) =>
      && e.req.RefreshToken? && e.req.token.Signed? && d.insert.Keys == {e.req.newId}
      && e.req.token.claims.jti.Some?
      && d.insert[e.req.newId].previous == e.req.token.claims.jti
    case _ => d.insert == map[]
  }

  ghost predicate Creates(w: World, e: Event) {
    Answer(w, e).result.LoggedIn? || Answer(w, e).result.Rotated?
  }

  /** What the request publishes, as far as the tables are concerned. */
  ghost predicate Publishes(w: World, before: Time, e: Event, d: Delta, i: nat) {
    && CommitAt(Answer(w, e).effects, d, i)
    && GoodDelta(w.tables, d, before, e.clock.end)
    && CreatesMatch(w, e, d)
  }

  lemma LoginCommits(u: UserId, active: seq<SessionId>, device: Option<string>, ip: Option<string>, newId: SessionId, c: Clock)
    ensures CommitAt(LoginPlan(u, active, device, ip, newId, c), LoginDelta(u, active, device, ip, newId, c), |Evicted(active)|)
  {
    hide Evicted, LoginDelta, LoginPair, LoginRow, EntryFor, CreateToken;
    var es := LoginPlan(u, active, device, ip, newId, c);
    assert es[..|Evicted(active)|] == DelAll(SessionKeys(Evicted(active)));
    assert |es| == |Evicted(active)| + 3;
  }

  lemma LogoutAllCommits(revoke: map<SessionId, Time>, active: seq<SessionId>)
    ensures CommitAt(LogoutAllPlan(revoke, active), Delta(NoChange, revoke, map[]), 0)
  {
    assert LogoutAllPlan(revoke, active)[1..] == DelAll(PurgeKeys(active));
  }

  lemma LockoutCommits(u: UserId, write: UserWrite, revoke: map<SessionId, Time>, active: seq<SessionId>)
    ensures CommitAt(LockoutPlan(u, write, revoke, active), Delta(Change(u, write), revoke, map[]), |PurgeKeys(active)|)
  {
    var es := LockoutPlan(u, write, revoke, active);
    assert es[..|PurgeKeys(active)|] == DelAll(PurgeKeys(active));
    assert es[|PurgeKeys(active)| + 1..] == [Del(UserKey(u))];
  }

  lemma LoginAnswer(w: World, e: Event)
    requires e.req.Login?
    ensures Answer(w, e).effects == [] <==> !Answer(w, e).result.LoggedIn?
    ensures !Answer(w, e).result.Rotated?
    ensures Answer(w, e).result.LoggedIn? ==>
      && FindByEmail(w.tables, e.req.email) == Some(Answer(w, e).result.info.id)
      && Answer(w, e).result.pair == LoginPair(Answer(w, e).result.info.id, e.req.newId, e.clock)
  {
  }

  lemma LoginPublishes(w: World, e: Event, before: Time)
    requires Inv(w, before) && Inputs(w, before, e) && e.req.Login? && Answer(w, e).effects != []
    ensures exists d, i :: Publishes(w, before, e, d, i)
  {
    hide *;
    InputsClock(w, e, before);
    LoginShape(w, e, before);
    LoginAnswer(w, e);
    var u := FindByEmail(w.tables, e.req.email).value;
    var d := LoginDelta(u, e.seen.active, e.req.device, e.req.ip, e.req.newId, e.clock);
    LoginCommits(u, e.seen.active, e.req.device, e.req.ip, e.req.newId, e.clock);
    LoginFacts(w, u, e.seen.active, e.req.device, e.req.ip, e.req.newId, e.clock, before);
    LoginRoot(u, e.req.device, e.req.ip, e.clock);
    NotCreating(w, e);
    PublishesIs(w, before, e, d, |Evicted(e.seen.active)|);
  }

  lemma LoginRoot(u: UserId, device: Option<string>, ip: Option<string>, c: Clock)
    ensures LoginRow(u, device, ip, c).previous == None && LoginRow(u, device, ip, c).userId == u
  {
  }

  lemma PublishesIs(w: World, before: Time, e: Event, d: Delta, i: nat)
    requires CommitAt(Answer(w, e).effects, d, i) && GoodDelta(w.tables, d, before, e.clock.end)
    requires Answer(w, e).result.LoggedIn? ==>
      e.req.Login? && d.insert.Keys == {e.req.newId} && d.insert[e.req.newId].previous == None
      && d.insert[e.req.newId].userId == Answer(w, e).result.info.id
    requires Answer(w, e).result.Rotated? ==>
      e.req.RefreshToken? && e.req.token.Signed? && d.insert.Keys == {e.req.newId} && e.req.token.claims.jti.Some?
      && d.insert[e.req.newId].previous == e.req.token.claims.jti
    requires !Creates(w, e) ==> d.insert == map[]
    ensures Publishes(w, before, e, d, i)
  {
    hide Answer, CommitAt, GoodDelta;
  }

  lemma RefreshPublishes(w: World, e: Event, before: Time)
    requires Inv(w, before) && Inputs(w, before, e) && e.req.RefreshToken? && Answer(w, e).effects != []
    ensures exists d, i :: Publishes(w, before, e, d, i)
  {
    hide *;
    InputsClock(w, e, before);
    OwnedTokens(w, before);
    TablesOfInv(w, before);
    RefreshShape(w, e, before);
    RefreshAnswer(w, e);
    var claims := e.req.token.claims;
    if RevokesFirst(w, e) {
      var revoke := RevokeAll(w.tables, claims.sub, e.clock.revoke);
      LogoutAllCommits(revoke, e.seen.active);
      RevokeAllLive(w.tables, claims.sub, e.clock.revoke, e.clock.end);
      RevocationGood(w.tables, revoke, before, e.clock.end);
      NotCreating(w, e);
      PublishesIs(w, before, e, Delta(NoChange, revoke, map[]), 0);
    } else {
      var s := claims.jti.value;
      RotationFacts(w, s, e.req.ip, e.req.newId, e.clock, before);
      RotationCommits(s, w.tables.sessions[s], claims.sub, e.req.ip, e.req.newId, e.clock);
      NotCreating(w, e);
      PublishesIs(w, before, e, RotationDelta(s, w.tables.sessions[s], claims.sub, e.req.ip, e.req.newId, e.clock), 1);
    }
  }

  lemma NotCreating(w: World, e: Event)
    ensures !Answer(w, e).result.LoggedIn? && !Answer(w, e).result.Rotated? <==> !Creates(w, e)
    ensures !Creates(w, e) ==> !Answer(w, e).result.LoggedIn? && !Answer(w, e).result.Rotated?
    ensures e.req.RefreshToken? && RevokesFirst(w, e) ==> Answer(w, e).result == Rejected(ReuseDetected)
  {
    hide Answer;
  }

  lemma RefreshAnswer(w: World, e: Event)
    requires e.req.RefreshToken?
    ensures !Answer(w, e).result.LoggedIn?
    ensures Answer(w, e).result.Rotated? ==> Answer(w, e).effects != []
  {
    hide LogoutAllPlan, RevokeAll, ReadGrace, InGrace, RotatedPair;
  }

  lemma RevokeAllLive(t: Tables, u: UserId, at: Time, now: Time)
    requires at <= now
    ensures RevokesLive(t, Delta(NoChange, RevokeAll(t, u, at), map[]), now)
  {
  }

  lemma RotationCommits(s: SessionId, row: Session, sub: UserId, ip: Option<string>, newId: SessionId, c: Clock)
    ensures CommitAt(RotationPlan(s, row, sub, ip, newId, c), RotationDelta(s, row, sub, ip, newId, c), 1)
  {
    var es := RotationPlan(s, row, sub, ip, newId, c);
    assert es[..1] == [Del(SessionKey(s))];
    assert es[2..] == [es[2], es[3], es[4]];
  }

  lemma PlainAnswer(w: World, e: Event)
    requires !e.req.Login? && !e.req.RefreshToken?
    ensures !Creates(w, e)
  {
    hide LockoutPlan, ProfilePlan, LogoutAllPlan, LogoutPlan, RevokeAll, ReadSession, ReadIdentity;
  }

  lemma LogoutPublishes(w: World, e: Event, before: Time)
    requires Inv(w, before) && Inputs(w, before, e) && (e.req.Logout? || e.req.LogoutAll?) && Answer(w, e).effects != []
    ensures exists d, i :: Publishes(w, before, e, d, i)
  {
    hide *;
    InputsClock(w, e, before);
    TablesOfInv(w, before);
    AnswerLogout(w, e);
    PlainAnswer(w, e);
    NotCreating(w, e);
    if e.req.LogoutAll? {
      var revoke := RevokeAll(w.tables, e.req.id, e.clock.revoke);
      LogoutAllCommits(revoke, e.seen.active);
      RevokeAllLive(w.tables, e.req.id, e.clock.revoke, e.clock.end);
      RevocationGood(w.tables, revoke, before, e.clock.end);
      PublishesIs(w, before, e, Delta(NoChange, revoke, map[]), 0);
    } else {
      var s := e.req.session;
      var revoke := LogoutRevoke(s, w.tables.sessions[s], e.clock.revoke);
      LogoutFacts(w.tables, s, e.clock) by { InputsOrdered(w, e, before); }
      RevocationGood(w.tables, revoke, before, e.clock.end);
      LogoutCommits(s, w.tables.sessions[s], e.clock);
      PublishesIs(w, before, e, Delta(NoChange, revoke, map[]), 0);
    }
  }

  lemma InputsOrdered(w: World, e: Event, before: Time)
    requires Inputs(w, before, e)
    ensures Ordered(e.clock)
  {
  }

  lemma LogoutCommits(s: SessionId, row: Session, c: Clock)
    ensures CommitAt(LogoutPlan(s, row, c), Delta(NoChange, LogoutRevoke(s, row, c.revoke), map[]), 0)
  {
    assert LogoutPlan(s, row, c)[1..] == [Del(SessionKey(s)), Del(GraceKey(s))];
  }

  lemma UserPublishes(w: World, e: Event, before: Time)
    requires Inv(w, before) && Inputs(w, before, e) && Answer(w, e).effects != []
    requires e.req.CreateUser? || e.req.UpdateUser? || e.req.SetUserPassword? || e.req.ChangeStatus? || e.req.DeleteUser?
    ensures exists d, i :: Publishes(w, before, e, d, i)
  {
    hide *;
    InputsClock(w, e, before);
    TablesOfInv(w, before);
    UserShape(w, e, before);
    PlainAnswer(w, e);
    NotCreating(w, e);
    WritePlanIs(w, e);
    var write :| && GoodWrite(w.tables, e.req.id, write)
                 && Answer(w, e).effects == WritePlan(w, e, write)
                 && (Bars(write) ==> IsActiveList(e.seen.active, w.tables, e.req.id, e.clock.query));
    var revoke := if Bars(write) then RevokeAll(w.tables, e.req.id, e.clock.revoke) else map[];
    var d := Delta(Change(e.req.id, write), revoke, map[]);
    WriteGood(w.tables, e.req.id, write, revoke, e.clock.revoke, before, e.clock.end);
    if Bars(write) {
      LockoutCommits(e.req.id, write, revoke, e.seen.active);
      PublishesIs(w, before, e, d, |PurgeKeys(e.seen.active)|);
    } else {
      ProfileCommits(e.req.id, write);
      PublishesIs(w, before, e, d, 0);
    }
  }

  lemma ProfileCommits(u: UserId, write: UserWrite)
    ensures CommitAt(ProfilePlan(u, write), Delta(Change(u, write), map[], map[]), 0)
    ensures CommitAt([Commit(Delta(Change(u, write), map[], map[]))], Delta(Change(u, write), map[], map[]), 0)
  {
    assert ProfilePlan(u, write)[1..] == [Del(UserKey(u))];
  }

  lemma GateNoCommit(w: World, e: Event)
    requires e.req.Gate?
    ensures NoCommit(Answer(w, e).effects)
  {
    hide ReadSession, ReadIdentity, EntryFor;
  }

  /** Every request commits at most one transaction, and that transaction is a good one. */
  lemma EventPublishes(w: World, e: Event, before: Time)
    requires Inv(w, before) && Inputs(w, before, e)
    ensures (NoCommit(Answer(w, e).effects) && !Creates(w, e)) || exists d, i :: Publishes(w, before, e, d, i)
  {
    hide *;
    NoCommitNothing();
    NotCreating(w, e);
    match e.req {
      case Login(_, _, _, _, _) =>
        LoginAnswer(w, e);
        if Answer(w, e).effects != [] { LoginPublishes(w, e, before); }
      case RefreshToken(_, _, _) =>
        RefreshAnswer(w, e);
        if Answer(w, e).effects != [] { RefreshPublishes(w, e, before); }
      case Logout(_) =>
        PlainAnswer(w, e);
        if Answer(w, e).effects != [] { LogoutPublishes(w, e, before); }
      case LogoutAll(_) =>
        PlainAnswer(w, e);
        if Answer(w, e).effects != [] { LogoutPublishes(w, e, before); }
      case Gate(_) =>
        PlainAnswer(w, e);
        GateNoCommit(w, e);
      case _ =>
        PlainAnswer(w, e);
        if Answer(w, e).effects != [] { UserPublishes(w, e, before); }
    }
  }

  lemma NoCommitNothing()
    ensures NoCommit([])
  {
  }

  // ---- Abort anywhere ------------------------------------------------------------------

  /** Wherever a request stops, the tables are those before it or those its one transaction publishes. */
  lemma StepTables(w: World, before: Time, e: Event, w': World)
    requires Inv(w, before) && Step(w, before, e, w')
    ensures w'.tables == w.tables || exists d, i :: Publishes(w, before, e, d, i) && e.done > i && w'.tables == ApplyDelta(w.tables, d)
    ensures w'.tables == w.tables || w'.tables == Play(w, Answer(w, e).effects).tables
    ensures forall d, i | Publishes(w, before, e, d, i) ::
              w'.tables == if e.done <= i then w.tables else ApplyDelta(w.tables, d)
  {
    hide *;
    StepParts(w, before, e, w');
    BelowTables(w', Play(w, Answer(w, e).effects[..e.done]));
    EventPublishes(w, e, before);
    var es := Answer(w, e).effects;
    assert es[..|es|] == es;
    forall d, i | Publishes(w, before, e, d, i)
      ensures w'.tables == if e.done <= i then w.tables else ApplyDelta(w.tables, d)
      ensures Play(w, es).tables == ApplyDelta(w.tables, d)
    {
      PublishesParts(w, before, e, d, i);
      TablesAt(w, es, d, i, e.done);
      TablesAt(w, es, d, i, |es|);
    }
    if d, i :| Publishes(w, before, e, d, i) {
    } else {
      NoCommitPrefix(es, e.done);
      NoCommitTables(w, es[..e.done]);
    }
  }

  lemma BelowTables(a: World, b: World)
    requires Below(a, b)
    ensures a.tables == b.tables && a.issued == b.issued
  {
  }

  lemma NoCommitPrefix(es: seq<Effect>, k: nat)
    requires NoCommit(es) && k <= |es|
    ensures NoCommit(es[..k])
  {
  }

  lemma PublishesParts(w: World, before: Time, e: Event, d: Delta, i: nat)
    requires Publishes(w, before, e, d, i)
    ensures CommitAt(Answer(w, e).effects, d, i) && GoodDelta(w.tables, d, before, e.clock.end) && CreatesMatch(w, e, d)
    ensures i < |Answer(w, e).effects|
  {
    hide Answer, GoodDelta, CreatesMatch;
  }

  /**
   * Stopped after any effect, a login, a rotation, a status change or a deletion
   * leaves the tables wholly before or wholly after, and no unexpired cache
   * entry that calls a revoked session active.
   */
  lemma AbortAnywhere(w: World, before: Time, e: Event, w': World)
    requires Inv(w, before) && Step(w, before, e, w')
    ensures w'.tables == w.tables || w'.tables == Play(w, Answer(w, e).effects).tables
    ensures NoStaleActive(w', e.clock.end)
  {
    hide *;
    StepTables(w, before, e, w');
    StepKeepsInv(w, before, e, w');
    InvNoStale(w', e.clock.end);
  }

  lemma InvNoStale(w: World, now: Time)
    requires Inv(w, now)
    ensures NoStaleActive(w, now)
  {
  }
}
