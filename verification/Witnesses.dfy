/** Runs, request by request, in which the guarantees stop. */
module Witnesses {
  import opened Types
  import opened Tokens
  import opened Store
  import opened Protocol
  import opened Invariants
  import opened Commits
  import opened Requests
  import opened Runs
  import opened Transactions
  import opened FreeRuns
  import opened Gatekeeping
  import opened Reuse

  function Instant(t: Time): Clock {
    Clock(t, t, t, t, t, t, t, t, [], t, t, t, t, t, t, t, t)
  }

  function Ann(status: Status): User {
    User("ann@example.org", "ann", "Ann", HashOf("pw"), status, Member, None)
  }

  /** One user, who has never logged in. */
  function Start(u: UserId, status: Status): World {
    World(Tables(map[u := Ann(status)], map[]), map[], map[])
  }

  lemma MadeStep(w: World, before: Time, e: Event, effects: seq<Effect>, result: Result, w': World)
    requires Inputs(w, before, e) && e.seen.cache == map[] && Answer(w, e) == Served(effects, result)
    requires e.done <= |effects| && w' == Play(w, effects[..e.done])
    requires e.req.Logout? || e.req.LogoutAll? || result == Rejected(ReuseDetected) ==> e.done == |effects|
    ensures Step(w, before, e, w')
  {
    hide Inputs, Answer, Play;
  }

  lemma InstantOrdered(t: Time)
    ensures Ordered(Instant(t))
    ensures Instant(t).begin == t && Instant(t).decode == t && Instant(t).check == t && Instant(t).readNext == t && Instant(t).query == t
  {
  }

  lemma {:induction false} PlayList(w: World, es: seq<Effect>)
    ensures |es| == 1 ==> Play(w, es) == Apply(w, es[0])
    ensures |es| == 2 ==> Play(w, es) == Apply(Apply(w, es[0]), es[1])
    ensures |es| == 3 ==> Play(w, es) == Apply(Apply(Apply(w, es[0]), es[1]), es[2])
    ensures |es| == 4 ==> Play(w, es) == Apply(Apply(Apply(Apply(w, es[0]), es[1]), es[2]), es[3])
    ensures |es| == 5 ==> Play(w, es) == Apply(Apply(Apply(Apply(Apply(w, es[0]), es[1]), es[2]), es[3]), es[4])
  {
    hide Apply;
    assert Play(w, es[..0]) == w;
    if |es| <= 5 {
      assert es[..|es|] == es;
      if |es| > 0 { PlayNext(w, es, 0); }
      if |es| > 1 { PlayNext(w, es, 1); }
      if |es| > 2 { PlayNext(w, es, 2); }
      if |es| > 3 { PlayNext(w, es, 3); }
      if |es| > 4 { PlayNext(w, es, 4); }
    }
  }

  // ---- Logging in ----------------------------------------------------------------------------

  function LoginAt(first: SessionId, t: Time): Event {
    Event(Login("ann@example.org", "pw", None, None, first), Reads(map[], []), Instant(t), 3)
  }

  function FirstRow(u: UserId, t: Time): Session {
    LoginRow(u, None, None, Instant(t))
  }

  function FirstPair(u: UserId, first: SessionId, t: Time): TokenPair {
    LoginPair(u, first, Instant(t))
  }

  function LoggedInAt(u: UserId, status: Status, first: SessionId, t: Time): World {
    World(
      Tables(map[u := Ann(status)], map[first := FirstRow(u, t)]),
      map[SessionKey(first) := EntryFor(SessionValue(Project(first, FirstRow(u, t))), Some(REFRESH_SECONDS), t)],
      map[first := FirstPair(u, first, t)])
  }

  lemma LoginStep(u: UserId, status: Status, first: SessionId, t: Time)
    requires !IsLockout(status) && 0 < t
    ensures Step(Start(u, status), 0, LoginAt(first, t), LoggedInAt(u, status, first, t))
  {
    var w, e := Start(u, status), LoginAt(first, t);
    var es := LoginPlan(u, [], None, None, first, e.clock);
    LoginInputs(u, status, first, t);
    LoginIs(u, status, first, t);
    LoginPlays(u, status, first, t);
    hide *;
    MadeStep(w, 0, e, es, LoggedIn(FirstPair(u, first, t), InfoOf(u, Ann(status))), LoggedInAt(u, status, first, t));
  }

  lemma FoundAnn(u: UserId, status: Status)
    ensures FindByEmail(Start(u, status).tables, "ann@example.org") == Some(u)
  {
    assert Visible(Start(u, status).tables, u) && HasEmail(Start(u, status).tables, u, "ann@example.org");
  }

  lemma LoginInputs(u: UserId, status: Status, first: SessionId, t: Time)
    requires 0 < t
    ensures Inputs(Start(u, status), 0, LoginAt(first, t))
  {
    FoundAnn(u, status);
    InstantOrdered(t);
    assert ActiveSet(Start(u, status).tables, u, t) == {};
    hide FindByEmail, Ordered;
  }

  lemma LoginIs(u: UserId, status: Status, first: SessionId, t: Time)
    requires !IsLockout(status)
    ensures Answer(Start(u, status), LoginAt(first, t))
         == Served(LoginPlan(u, [], None, None, first, Instant(t)), LoggedIn(FirstPair(u, first, t), InfoOf(u, Ann(status))))
  {
    FoundAnn(u, status);
    hide FindByEmail, LoginPlan, LoginPair;
  }

  lemma LoginPlays(u: UserId, status: Status, first: SessionId, t: Time)
    ensures var es := LoginPlan(u, [], None, None, first, Instant(t));
            |es| == 3 && Play(Start(u, status), es[..3]) == LoggedInAt(u, status, first, t)
  {
    var es := LoginPlan(u, [], None, None, first, Instant(t));
    assert Evicted([]) == [] && EvictMap([], Instant(t)) == map[] && DelAll(SessionKeys([])) == [];
    assert es == [Commit(Delta(NoChange, map[], map[first := FirstRow(u, t)])), Issue(first, FirstPair(u, first, t)),
                  CacheSession(first, FirstRow(u, t), REFRESH_SECONDS, t)];
    assert es[..3] == es;
    PlayList(Start(u, status), es);
    hide Play, LoginPlan, LoginPair, LoginRow, EntryFor;
    assert ApplyDelta(Start(u, status).tables, Delta(NoChange, map[], map[first := FirstRow(u, t)])).sessions == map[first := FirstRow(u, t)];
  }

  // ---- Rotating ---------------------------------------------------------------------------------

  function RefreshAt(u: UserId, first: SessionId, t: Time, second: SessionId, t2: Time): Event {
    Event(RefreshToken(Signed(FirstPair(u, first, t).refresh), None, second), Reads(map[], [first]), Instant(t2), 5)
  }

  function SecondRow(u: UserId, first: SessionId, t: Time, t2: Time): Session {
    RotatedRow(first, FirstRow(u, t), u, None, Instant(t2))
  }

  function SecondPair(u: UserId, t: Time, second: SessionId, t2: Time): TokenPair {
    RotatedPair(FirstRow(u, t), u, second, Instant(t2))
  }

  function RotatedAt(u: UserId, status: Status, first: SessionId, t: Time, second: SessionId, t2: Time): World {
    var row, pair := SecondRow(u, first, t, t2), SecondPair(u, t, second, t2);
    World(
      Tables(map[u := Ann(status)], map[first := FirstRow(u, t).(revokedAt := Some(t2)), second := row]),
      map[SessionKey(second) :=
            EntryFor(SessionValue(Project(second, row)), Some(RemainingSeconds(t + REFRESH_LIFETIME, t2)), t2),
          GraceKey(first) := EntryFor(PairValue(pair), Some(GRACE_SECONDS), t2)],
      map[first := FirstPair(u, first, t), second := pair])
  }

  lemma RefreshStep(u: UserId, status: Status, first: SessionId, t: Time, second: SessionId, t2: Time)
    requires !IsLockout(status) && 0 < t < t2 < t + REFRESH_LIFETIME && first != second
    ensures Step(LoggedInAt(u, status, first, t), t, RefreshAt(u, first, t, second, t2), RotatedAt(u, status, first, t, second, t2))
    ensures Answer(LoggedInAt(u, status, first, t), RefreshAt(u, first, t, second, t2)).result == Rotated(SecondPair(u, t, second, t2))
    ensures Finished(LoggedInAt(u, status, first, t), RefreshAt(u, first, t, second, t2))
  {
    hide *;
    var w, e := LoggedInAt(u, status, first, t), RefreshAt(u, first, t, second, t2);
    RefreshInputs(u, status, first, t, second, t2);
    RefreshIs(u, status, first, t, second, t2);
    RefreshPlays(u, status, first, t, second, t2);
    RefreshFields(u, first, t, second, t2);
    FinishedIs(w, e);
    MadeStep(w, t, e, RotationPlan(first, FirstRow(u, t), u, None, second, Instant(t2)), Rotated(SecondPair(u, t, second, t2)),
             RotatedAt(u, status, first, t, second, t2));
  }

  lemma RefreshFields(u: UserId, first: SessionId, t: Time, second: SessionId, t2: Time)
    ensures var e := RefreshAt(u, first, t, second, t2);
            e.done == 5 && e.seen.cache == map[] && e.req.RefreshToken? && e.clock == Instant(t2)
  {
    hide FirstPair;
  }

  lemma RefreshInputs(u: UserId, status: Status, first: SessionId, t: Time, second: SessionId, t2: Time)
    requires 0 < t < t2 < t + REFRESH_LIFETIME && first != second
    ensures Inputs(LoggedInAt(u, status, first, t), t, RefreshAt(u, first, t, second, t2))
  {
    var w := LoggedInAt(u, status, first, t);
    InstantOrdered(t2);
    assert ActiveSet(w.tables, u, t2) == {first};
    assert first in w.issued;
    hide Ordered, EntryFor, ActiveSet;
  }

  lemma RefreshIs(u: UserId, status: Status, first: SessionId, t: Time, second: SessionId, t2: Time)
    requires !IsLockout(status) && 0 < t < t2 < t + REFRESH_LIFETIME
    ensures Answer(LoggedInAt(u, status, first, t), RefreshAt(u, first, t, second, t2))
         == Served(RotationPlan(first, FirstRow(u, t), u, None, second, Instant(t2)), Rotated(SecondPair(u, t, second, t2)))
  {
    hide RotationPlan, RotatedPair, EntryFor;
    var claims := FirstPair(u, first, t).refresh;
    assert claims.exp == t + REFRESH_LIFETIME && DecodeToken(Signed(claims), t2) == Some(claims);
  }

  lemma RefreshPlays(u: UserId, status: Status, first: SessionId, t: Time, second: SessionId, t2: Time)
    requires first != second
    ensures
      var es := RotationPlan(first, FirstRow(u, t), u, None, second, Instant(t2));
      |es| == 5 && Play(LoggedInAt(u, status, first, t), es[..5]) == RotatedAt(u, status, first, t, second, t2)
  {
    hide Play, RotatedPair, EntryFor, LoginPair, RemainingSeconds;
    var w := LoggedInAt(u, status, first, t);
    var es := RotationPlan(first, FirstRow(u, t), u, None, second, Instant(t2));
    assert es[..5] == es;
    PlayList(w, es);
    RotatedTables(u, status, first, t, second, t2);
    assert w.cache - {SessionKey(first)} == map[];
  }

  lemma RotatedTables(u: UserId, status: Status, first: SessionId, t: Time, second: SessionId, t2: Time)
    requires first != second
    ensures ApplyDelta(LoggedInAt(u, status, first, t).tables, RotationDelta(first, FirstRow(u, t), u, None, second, Instant(t2)))
         == RotatedAt(u, status, first, t, second, t2).tables
  {
    hide RotatedPair, EntryFor, LoginPair, RemainingSeconds;
  }

  // ---- A replay to a locked-out user -----------------------------------------------------------

  function SuspendAt(u: UserId, second: SessionId, t3: Time): Event {
    Event(ChangeStatus(u, Status.Suspended), Reads(map[], [second]), Instant(t3), 4)
  }

  function SuspendPlan(u: UserId, second: SessionId, t3: Time): seq<Effect> {
    LockoutPlan(u, SetStatus(Status.Suspended), map[second := t3], [second])
  }

  function SuspendedAt(u: UserId, first: SessionId, t: Time, second: SessionId, t2: Time, t3: Time): World {
    Play(RotatedAt(u, Active, first, t, second, t2), SuspendPlan(u, second, t3))
  }

  lemma SuspendStep(u: UserId, first: SessionId, t: Time, second: SessionId, t2: Time, t3: Time)
    requires 0 < t < t2 < t3 < t + REFRESH_LIFETIME && first != second
    ensures Step(RotatedAt(u, Active, first, t, second, t2), t2, SuspendAt(u, second, t3), SuspendedAt(u, first, t, second, t2, t3))
    ensures Lossless(RotatedAt(u, Active, first, t, second, t2), SuspendAt(u, second, t3), SuspendedAt(u, first, t, second, t2, t3))
    ensures u in SuspendedAt(u, first, t, second, t2, t3).tables.users
    ensures SuspendedAt(u, first, t, second, t2, t3).tables.users[u].status == Status.Suspended
  {
    hide *;
    var w, e, es := RotatedAt(u, Active, first, t, second, t2), SuspendAt(u, second, t3), SuspendPlan(u, second, t3);
    SuspendIs(u, first, t, second, t2, t3);
    SuspendEffects(u, first, t, second, t2, t3);
    assert es[..4] == es;
    MadeStep(w, t2, e, es, Done, SuspendedAt(u, first, t, second, t2, t3));
    LosslessFrom(w, e, SuspendedAt(u, first, t, second, t2, t3));
  }

  lemma LosslessFrom(w: World, e: Event, w': World)
    requires e.done <= |Answer(w, e).effects| && w' == Play(w, Answer(w, e).effects[..e.done])
    ensures Lossless(w, e, w')
  {
    hide Answer, Play;
  }

  lemma SuspendIs(u: UserId, first: SessionId, t: Time, second: SessionId, t2: Time, t3: Time)
    requires 0 < t < t2 < t3 < t + REFRESH_LIFETIME && first != second
    ensures
      var w, e := RotatedAt(u, Active, first, t, second, t2), SuspendAt(u, second, t3);
      && Inputs(w, t2, e) && e.seen.cache == map[] && e.done == 4 && e.req == ChangeStatus(u, Status.Suspended)
      && Answer(w, e) == Served(SuspendPlan(u, second, t3), Done)
  {
    var t0 := RotatedAt(u, Active, first, t, second, t2).tables;
    InstantOrdered(t3);
    assert ActiveSet(t0, u, t3) == {second};
    assert RevokeAll(t0, u, t3) == map[second := t3];
    hide Ordered, EntryFor, ActiveSet, RotatedPair, LoginPair, RevokeAll, LockoutPlan, RemainingSeconds;
  }

  lemma SuspendEffects(u: UserId, first: SessionId, t: Time, second: SessionId, t2: Time, t3: Time)
    ensures |SuspendPlan(u, second, t3)| == 4
    ensures SuspendedAt(u, first, t, second, t2, t3) == Play(RotatedAt(u, Active, first, t, second, t2), SuspendPlan(u, second, t3))
    ensures u in SuspendedAt(u, first, t, second, t2, t3).tables.users
    ensures SuspendedAt(u, first, t, second, t2, t3).tables.users[u].status == Status.Suspended
  {
    var w, es := RotatedAt(u, Active, first, t, second, t2), SuspendPlan(u, second, t3);
    var d := Delta(Change(u, SetStatus(Status.Suspended)), map[second := t3], map[]);
    assert |PurgeKeys([second])| == 2;
    LockoutCommits(u, SetStatus(Status.Suspended), map[second := t3], [second]);
    assert es[..4] == es;
    TablesAt(w, es, d, 2, 4);
    hide Play, EntryFor, RotatedPair, LoginPair;
  }

  lemma SuspendKeepsTokens(u: UserId, first: SessionId, t: Time, second: SessionId, t2: Time, t3: Time)
    ensures SuspendedAt(u, first, t, second, t2, t3).issued == RotatedAt(u, Active, first, t, second, t2).issued
  {
    var w, es := RotatedAt(u, Active, first, t, second, t2), SuspendPlan(u, second, t3);
    assert |PurgeKeys([second])| == 2;
    PlayList(w, es);
    assert es[0].Del? && es[1].Del? && es[2].Commit? && es[3].Del?;
    hide Play, SuspendPlan, RotatedAt;
  }

  /** Two or three steps from the start are a run. */
  lemma RunOf(w0: World, e0: Event, w1: World, e1: Event, w2: World, e2: Event, w3: World)
    requires Initial(w0) && Step(w0, 0, e0, w1) && Step(w1, e0.clock.end, e1, w2)
    ensures Run([w0, w1, w2], [e0, e1])
    ensures Step(w2, e1.clock.end, e2, w3) ==> Run([w0, w1, w2, w3], [e0, e1, e2])
  {
    hide Step, Initial;
    var ws, es := [w0, w1, w2], [e0, e1];
    forall i | 0 <= i < |es| ensures Step(ws[i], ClockBefore(es, i), es[i], ws[i + 1]) {
      assert i == 0 || i == 1;
    }
    if Step(w2, e1.clock.end, e2, w3) {
      var ws3, es3 := [w0, w1, w2, w3], [e0, e1, e2];
      forall i | 0 <= i < |es3| ensures Step(ws3[i], ClockBefore(es3, i), es3[i], ws3[i + 1]) {
        assert i == 0 || i == 1 || i == 2;
      }
    }
  }

  lemma StartInitial(u: UserId, status: Status)
    ensures Initial(Start(u, status))
  {
  }

  lemma ClockEnds(u: UserId, first: SessionId, t: Time, second: SessionId, t2: Time, t3: Time)
    ensures LoginAt(first, t).clock.end == t && RefreshAt(u, first, t, second, t2).clock.end == t2
    ensures SuspendAt(u, second, t3).clock.end == t3
    ensures RefreshAt(u, first, t, second, t2).clock.revoke == t2 && RefreshAt(u, first, t, second, t2).clock.putGrace == t2
    ensures RefreshAt(u, first, t, second, t2).req == RefreshToken(Signed(FirstPair(u, first, t).refresh), None, second)
  {
    hide FirstPair;
  }

  function ReplayAt(u: UserId, first: SessionId, t: Time, third: SessionId, cache: Cache, active: seq<SessionId>, c: Clock): Event {
    Event(RefreshToken(Signed(FirstPair(u, first, t).refresh), None, third), Reads(cache, active), c, 0)
  }

  /**
   * Lockout does not stop a replay. Whenever a user logs in, refreshes, and is
   * suspended, presenting the rotated token again within the grace window is
   * answered with the pair of the refresh, though that pair is dead.
   */
  lemma LockedOutReplay(u: UserId, first: SessionId, second: SessionId, third: SessionId, t: Time, t2: Time, t3: Time, t4: Time)
    requires first != second && third !in {first, second}
    requires 0 < t < t2 < t3 < t4 < t + REFRESH_LIFETIME && t4 <= t2 + GRACE_WINDOW
    ensures
      var ws := [Start(u, Active), LoggedInAt(u, Active, first, t), RotatedAt(u, Active, first, t, second, t2),
                 SuspendedAt(u, first, t, second, t2, t3)];
      var es := [LoginAt(first, t), RefreshAt(u, first, t, second, t2), SuspendAt(u, second, t3)];
      var e := ReplayAt(u, first, t, third, ws[3].cache, [], Instant(t4));
      && Run(ws, es) && Admissible(ws[3], t3, e)
      && u in ws[3].tables.users && ws[3].tables.users[u].status == Status.Suspended
      && Answer(ws[3], e).result == Replayed(SecondPair(u, t, second, t2))
      && DeadPair(ws[3].tables, SecondPair(u, t, second, t2), u)
  {
    hide *;
    Limits();
    var w0, w1, w2, w3 := Start(u, Active), LoggedInAt(u, Active, first, t), RotatedAt(u, Active, first, t, second, t2),
                          SuspendedAt(u, first, t, second, t2, t3);
    var e0, e1, e2 := LoginAt(first, t), RefreshAt(u, first, t, second, t2), SuspendAt(u, second, t3);
    var ws, es := [w0, w1, w2, w3], [e0, e1, e2];
    var e := ReplayAt(u, first, t, third, w3.cache, [], Instant(t4));
    ActiveIsNoLockout();
    StartInitial(u, Active);
    LoginStep(u, Active, first, t);
    RefreshStep(u, Active, first, t, second, t2);
    SuspendStep(u, first, t, second, t2, t3);
    ClockEnds(u, first, t, second, t2, t3);
    RunOf(w0, e0, w1, e1, w2, e2, w3);
    RefreshLossless(u, Active, first, t, second, t2);
    InstantOrdered(t4);
    ReplayFields(u, first, t, third, w3.cache, [], Instant(t4), t4);
    forall k | 1 <= k < 3 ensures Lossless(ws[k], es[k], ws[k + 1]) {
      assert k == 1 || k == 2;
    }
    NotLogout(u, second, t3, first);
    ReplayHits(ws, es, 1, 3, e);
    LastClock(es);
    Reachable(ws, es, 3);
    SuspendedTables(u, first, t, second, t2, t3, t4);
    SuspendKeepsTokens(u, first, t, second, t2, t3);
    RotatedIssued(u, Active, first, t, second, t2);
    ReplayInputs(w3, t3, u, first, t, third, w3.cache, [], Instant(t4));
    ReplayAdmissible(w3, t3, e);
    SuspendedHolds(w3.tables, u);
    RefreshAfterLockout(w3, t3, e, u);
  }

  lemma ActiveIsNoLockout()
    ensures !IsLockout(Active) && !IsLockout(PendingVerification)
  {
  }

  lemma RefreshLossless(u: UserId, status: Status, first: SessionId, t: Time, second: SessionId, t2: Time)
    requires !IsLockout(status) && 0 < t < t2 < t + REFRESH_LIFETIME && first != second
    ensures Lossless(LoggedInAt(u, status, first, t), RefreshAt(u, first, t, second, t2), RotatedAt(u, status, first, t, second, t2))
  {
    hide *;
    RefreshIs(u, status, first, t, second, t2);
    RefreshPlays(u, status, first, t, second, t2);
    RefreshFields(u, first, t, second, t2);
    LosslessFrom(LoggedInAt(u, status, first, t), RefreshAt(u, first, t, second, t2), RotatedAt(u, status, first, t, second, t2));
  }

  lemma ReplayFields(u: UserId, first: SessionId, t: Time, third: SessionId, cache: Cache, active: seq<SessionId>, c: Clock, decode: Time)
    requires c.decode == decode <= t + REFRESH_LIFETIME
    ensures
      var e := ReplayAt(u, first, t, third, cache, active, c);
      && e.req == RefreshToken(Signed(FirstPair(u, first, t).refresh), None, third)
      && e.seen == Reads(cache, active) && e.clock == c && e.done == 0
    ensures
      var claims := FirstPair(u, first, t).refresh;
      claims.kind == Refresh && claims.jti == Some(first) && claims.sub == u && DecodeToken(Signed(claims), c.decode) == Some(claims)
  {
  }

  lemma NotLogout(u: UserId, second: SessionId, t3: Time, first: SessionId)
    ensures SuspendAt(u, second, t3).req != Request.Logout(first)
  {
  }

  lemma LastClock(es: seq<Event>)
    requires |es| == 3
    ensures ClockBefore(es, 3) == es[2].clock.end && ClockBefore(es, 2) == es[1].clock.end
  {
  }

  lemma SuspendedHolds(t: Tables, u: UserId)
    requires u in t.users && t.users[u].status == Status.Suspended
    ensures !MayHold(t.users[u])
  {
  }

  /** Presenting the first token again is a request that can be made. */
  lemma ReplayInputs(w: World, before: Time, u: UserId, first: SessionId, t: Time, third: SessionId, cache: Cache, active: seq<SessionId>, c: Clock)
    requires Ordered(c) && before < c.begin && third !in w.tables.sessions
    requires first in w.issued && w.issued[first] == FirstPair(u, first, t) && IsActiveList(active, w.tables, u, c.query)
    ensures Inputs(w, before, ReplayAt(u, first, t, third, cache, active, c))
  {
    hide Ordered, IsActiveList, LoginPair;
    assert FirstPair(u, first, t).refresh.sub == u by { PairSubject(u, first, t); }
  }

  lemma PairSubject(u: UserId, first: SessionId, t: Time)
    ensures FirstPair(u, first, t).refresh.sub == u
  {
  }

  lemma ReplayAdmissible(w: World, before: Time, e: Event)
    requires Inputs(w, before, e) && e.seen.cache == w.cache && e.done == 0 && e.req.RefreshToken? && Answer(w, e).result.Replayed?
    ensures Admissible(w, before, e)
  {
    hide Inputs, Answer;
  }

  lemma SuspendedTables(u: UserId, first: SessionId, t: Time, second: SessionId, t2: Time, t3: Time, now: Time)
    requires first != second
    ensures
      var w3 := SuspendedAt(u, first, t, second, t2, t3);
      && w3.tables.sessions.Keys == {first, second}
      && IsActiveList([], w3.tables, u, now)
  {
    var w, es := RotatedAt(u, Active, first, t, second, t2), SuspendPlan(u, second, t3);
    var d := Delta(Change(u, SetStatus(Status.Suspended)), map[second := t3], map[]);
    LockoutCommits(u, SetStatus(Status.Suspended), map[second := t3], [second]);
    assert |PurgeKeys([second])| == 2;
    assert es[..4] == es;
    TablesAt(w, es, d, 2, 4);
    hide Play, EntryFor, RotatedPair, LoginPair, RemainingSeconds;
    assert ActiveSet(SuspendedAt(u, first, t, second, t2, t3).tables, u, now) == {};
  }

  lemma RotatedIssued(u: UserId, status: Status, first: SessionId, t: Time, second: SessionId, t2: Time)
    requires first != second
    ensures first in RotatedAt(u, status, first, t, second, t2).issued
    ensures RotatedAt(u, status, first, t, second, t2).issued[first] == FirstPair(u, first, t)
  {
    hide EntryFor, RotatedPair, LoginPair, RemainingSeconds;
  }

  lemma RefreshAfterLockout(w: World, before: Time, e: Event, u: UserId)
    requires Inv(w, before) && Inputs(w, before, e) && e.req.RefreshToken? && e.req.token.Signed? && e.req.token.claims.sub == u
    requires u in w.tables.users && !MayHold(w.tables.users[u]) && e.seen.cache == w.cache
    ensures Answer(w, e).result.Replayed? ==> DeadPair(w.tables, Answer(w, e).result.pair, u)
  {
    hide *;
    InvBare(w, before);
    SubmapSelf(w.cache);
    RefreshRefusesLockedOut(w, before, e);
  }

  lemma InvBare(w: World, now: Time)
    requires Inv(w, now)
    ensures Inv(Bare(w), now) && GraceExact(w)
  {
    hide TablesOk;
  }

  lemma SubmapSelf(cache: Cache)
    ensures Submap(cache, cache)
  {
  }

  // ---- A replay that comes too late ----------------------------------------------------------------

  /** The age is checked at the end of the window, and the cache is asked a microsecond later. */
  function LateClock(t2: Time): Clock {
    var a, b := t2 + GRACE_WINDOW, t2 + GRACE_WINDOW + 1;
    Clock(a, a, a, a, a, b, b, b, [], b, b, b, b, b, b, b, b)
  }

  lemma LateOrdered(t2: Time)
    ensures Ordered(LateClock(t2)) && LateClock(t2).begin == LateClock(t2).decode == LateClock(t2).check == t2 + GRACE_WINDOW
    ensures t2 < LateClock(t2).begin
    ensures LateClock(t2).readNext == LateClock(t2).query == t2 + GRACE_WINDOW + 1
  {
  }

  /** Being inside the grace window is not enough: with nothing lost, a lookup after the entry's expiry misses. */
  lemma LateLookup(u: UserId, first: SessionId, second: SessionId, third: SessionId, t: Time, t2: Time)
    requires first != second && third !in {first, second} && 0 < t < t2 && t2 + GRACE_WINDOW + 1 < t + REFRESH_LIFETIME
    ensures
      var ws := [Start(u, Active), LoggedInAt(u, Active, first, t), RotatedAt(u, Active, first, t, second, t2)];
      var es := [LoginAt(first, t), RefreshAt(u, first, t, second, t2)];
      var e := ReplayAt(u, first, t, third, ws[2].cache, [second], LateClock(t2));
      && Run(ws, es) && Inputs(ws[2], t2, e) && e.clock.check <= t2 + GRACE_WINDOW
      && Answer(ws[2], e).result == Rejected(PleaseRetry)
  {
    hide *;
    Limits();
    var w0, w1, w2 := Start(u, Active), LoggedInAt(u, Active, first, t), RotatedAt(u, Active, first, t, second, t2);
    var e0, e1 := LoginAt(first, t), RefreshAt(u, first, t, second, t2);
    var ws, es := [w0, w1, w2], [e0, e1];
    var e := ReplayAt(u, first, t, third, w2.cache, [second], LateClock(t2));
    ActiveIsNoLockout();
    StartInitial(u, Active);
    LoginStep(u, Active, first, t);
    RefreshStep(u, Active, first, t, second, t2);
    ClockEnds(u, first, t, second, t2, t2);
    RunOf(w0, e0, w1, e1, w2, e1, w2);
    RefreshLossless(u, Active, first, t, second, t2);
    LateOrdered(t2);
    ReplayFields(u, first, t, third, w2.cache, [second], LateClock(t2), t2 + GRACE_WINDOW);
    RotatedIssued(u, Active, first, t, second, t2);
    RotatedActive(u, first, t, second, t2, t2 + GRACE_WINDOW + 1);
    ReplayInputs(w2, t2, u, first, t, third, w2.cache, [second], LateClock(t2));
    ReplayHits(ws, es, 1, 2, e);
  }

  lemma RotatedActive(u: UserId, first: SessionId, t: Time, second: SessionId, t2: Time, now: Time)
    requires first != second && now < t + REFRESH_LIFETIME
    ensures RotatedAt(u, Active, first, t, second, t2).tables.sessions.Keys == {first, second}
    ensures IsActiveList([second], RotatedAt(u, Active, first, t, second, t2).tables, u, now)
  {
    hide EntryFor, RotatedPair, LoginPair, RemainingSeconds;
    assert ActiveSet(RotatedAt(u, Active, first, t, second, t2).tables, u, now) == {second};
  }

  // ---- The last instant of a session -------------------------------------------------------------------

  /** A minute before the chain ends. */
  function NearEnd(t: Time): Time {
    t + REFRESH_LIFETIME - 60 * SECOND
  }

  function LeaveAt(u: UserId, end: Time): Event {
    Event(LogoutAll(u), Reads(map[], []), Instant(end), 1)
  }

  function LeftAt(u: UserId, first: SessionId, t: Time, second: SessionId): World {
    var w, end := RotatedAt(u, Active, first, t, second, NearEnd(t)), t + REFRESH_LIFETIME;
    w.(tables := ApplyDelta(w.tables, Delta(NoChange, map[second := end], map[])))
  }

  lemma LeaveStep(u: UserId, first: SessionId, t: Time, second: SessionId)
    requires first != second && 0 < t
    ensures Step(RotatedAt(u, Active, first, t, second, NearEnd(t)), NearEnd(t), LeaveAt(u, t + REFRESH_LIFETIME), LeftAt(u, first, t, second))
  {
    hide *;
    var w, end := RotatedAt(u, Active, first, t, second, NearEnd(t)), t + REFRESH_LIFETIME;
    LeaveIs(u, first, t, second);
    LeavePlays(u, first, t, second);
    MadeStep(w, NearEnd(t), LeaveAt(u, end), LogoutAllPlan(map[second := end], []), Done, LeftAt(u, first, t, second));
  }

  lemma LeaveIs(u: UserId, first: SessionId, t: Time, second: SessionId)
    requires first != second && 0 < t
    ensures
      var w, end := RotatedAt(u, Active, first, t, second, NearEnd(t)), t + REFRESH_LIFETIME;
      var e := LeaveAt(u, end);
      && Inputs(w, NearEnd(t), e) && e.seen.cache == map[] && e.done == 1 && e.clock.end == end
      && Answer(w, e) == Served(LogoutAllPlan(map[second := end], []), Done)
  {
    var w, end := RotatedAt(u, Active, first, t, second, NearEnd(t)), t + REFRESH_LIFETIME;
    InstantOrdered(end);
    hide EntryFor, RotatedPair, LoginPair, RemainingSeconds, Ordered;
    assert ActiveSet(w.tables, u, end) == {};
    assert RevokeAll(w.tables, u, end) == map[second := end];
  }

  lemma LeavePlays(u: UserId, first: SessionId, t: Time, second: SessionId)
    ensures
      var w, end := RotatedAt(u, Active, first, t, second, NearEnd(t)), t + REFRESH_LIFETIME;
      var es := LogoutAllPlan(map[second := end], []);
      |es| == 1 && Play(w, es[..1]) == LeftAt(u, first, t, second)
  {
    var w, end := RotatedAt(u, Active, first, t, second, NearEnd(t)), t + REFRESH_LIFETIME;
    var es := LogoutAllPlan(map[second := end], []);
    assert PurgeKeys([]) == [];
    assert es[..1] == es;
    PlayList(w, es);
    hide Play, RotatedAt, ApplyDelta;
  }

  lemma LeftGate(u: UserId, first: SessionId, t: Time, second: SessionId)
    requires first != second && 0 < t
    ensures
      var w, end := LeftAt(u, first, t, second), t + REFRESH_LIFETIME;
      var q := Gate(Signed(SecondPair(u, t, second, NearEnd(t)).access));
      && ServeGate(w.tables, Reads(w.cache, []), q, Instant(end)).result == Admitted(IdentityOf(u, Ann(Active)))
      && DirectGate(w.tables, q, Instant(end)) == Rejected(SessionInactive)
  {
    var w, end := LeftAt(u, first, t, second), t + REFRESH_LIFETIME;
    var claims := SecondPair(u, t, second, NearEnd(t)).access;
    var row := SecondRow(u, first, t, NearEnd(t));
    assert claims.kind == Access && claims.sid == Some(second) && claims.sub == u && claims.exp == NearEnd(t) + ACCESS_LIFETIME;
    assert DecodeToken(Signed(claims), end) == Some(claims);
    assert w.tables.sessions[second] == row.(revokedAt := Some(end)) && w.tables.users[u] == Ann(Active);
    assert RemainingSeconds(end, NearEnd(t)) == 60;
    assert w.cache[SessionKey(second)].expiry == Some(end);
    assert ReadSession(w.cache, second, end) == Some(Project(second, row)) && row.expiresAt == end;
    assert ReadIdentity(w.cache, u, end) == None;
    hide LeftAt, SecondPair, SecondRow, ReadSession, ReadIdentity, DecodeToken;
  }

  /**
   * Why the clock must advance between requests. A user logs in, refreshes a
   * minute before the chain ends, and logs out everywhere at its very end: the
   * query for active sessions skips the session at its last instant, so it
   * stays cached, and the gate still accepts it.
   */
  lemma SameInstantDisagrees(u: UserId, first: SessionId, second: SessionId, t: Time)
    requires first != second && 0 < t
    ensures
      var ws := [Start(u, Active), LoggedInAt(u, Active, first, t), RotatedAt(u, Active, first, t, second, NearEnd(t)), LeftAt(u, first, t, second)];
      var es := [LoginAt(first, t), RefreshAt(u, first, t, second, NearEnd(t)), LeaveAt(u, t + REFRESH_LIFETIME)];
      var q, c := Gate(Signed(SecondPair(u, t, second, NearEnd(t)).access)), Instant(ClockBefore(es, 3));
      && Run(ws, es)
      && ServeGate(ws[3].tables, Reads(ws[3].cache, []), q, c).result == Admitted(IdentityOf(u, Ann(Active)))
      && DirectGate(ws[3].tables, q, c) == Rejected(SessionInactive)
  {
    hide *;
    var t2, end := NearEndIs(t);
    ActiveIsNoLockout();
    StartInitial(u, Active);
    LoginStep(u, Active, first, t);
    RefreshStep(u, Active, first, t, second, t2);
    LeaveStep(u, first, t, second);
    LeaveIs(u, first, t, second);
    ClockEnds(u, first, t, second, t2, t2);
    var e0, e1, e2 := LoginAt(first, t), RefreshAt(u, first, t, second, t2), LeaveAt(u, end);
    RunOf(Start(u, Active), e0, LoggedInAt(u, Active, first, t), e1, RotatedAt(u, Active, first, t, second, t2), e2, LeftAt(u, first, t, second));
    LastClock([e0, e1, e2]);
    LeftGate(u, first, t, second);
  }

  lemma NearEndIs(t: Time) returns (t2: Time, end: Time)
    ensures t2 == NearEnd(t) && end == t + REFRESH_LIFETIME && t < t2 < end
  {
    t2, end := NearEnd(t), t + REFRESH_LIFETIME;
  }

  // ---- A gate that errs -----------------------------------------------------------------------------------

  function GateAt(u: UserId, first: SessionId, t: Time, t2: Time): Event {
    Event(Gate(Signed(FirstPair(u, first, t).access)), Reads(map[], []), Instant(t2), 2)
  }

  /** The gate refused the unverified user, and cached what it read. */
  function WarmedAt(u: UserId, first: SessionId, t: Time, t2: Time): World {
    var w := LoggedInAt(u, PendingVerification, first, t);
    w.(cache := w.cache[SessionKey(first) := EntryFor(SessionValue(Project(first, FirstRow(u, t))), Some(WARM_SECONDS), t2)]
                       [UserKey(u) := EntryFor(UserValue(IdentityOf(u, Ann(PendingVerification))), Some(WARM_SECONDS), t2)])
  }

  function GateWrites(u: UserId, first: SessionId, t: Time, t2: Time): seq<Effect> {
    [WarmSession(first, FirstRow(u, t), Instant(t2)), WarmIdentity(u, Ann(PendingVerification), Instant(t2))]
  }

  lemma WarmStep(u: UserId, first: SessionId, t: Time, t2: Time)
    requires 0 < t < t2 <= t + ACCESS_LIFETIME
    ensures Step(LoggedInAt(u, PendingVerification, first, t), t, GateAt(u, first, t, t2), WarmedAt(u, first, t, t2))
  {
    hide *;
    var w := LoggedInAt(u, PendingVerification, first, t);
    GateIs(u, first, t, t2);
    GatePlays(u, first, t, t2);
    MadeStep(w, t, GateAt(u, first, t, t2), GateWrites(u, first, t, t2), Rejected(VerificationPending), WarmedAt(u, first, t, t2));
  }

  lemma GateIs(u: UserId, first: SessionId, t: Time, t2: Time)
    requires 0 < t < t2 <= t + ACCESS_LIFETIME
    ensures
      var w, e := LoggedInAt(u, PendingVerification, first, t), GateAt(u, first, t, t2);
      && Inputs(w, t, e) && e.seen.cache == map[] && e.done == 2 && e.req.Gate? && e.clock.end == t2
      && Answer(w, e) == Served(GateWrites(u, first, t, t2), Rejected(VerificationPending))
  {
    var w, e := LoggedInAt(u, PendingVerification, first, t), GateAt(u, first, t, t2);
    var claims := FirstPair(u, first, t).access;
    InstantOrdered(t2);
    assert claims.kind == Access && claims.sid == Some(first) && claims.sub == u && DecodeToken(Signed(claims), t2) == Some(claims);
    assert first in w.issued && w.issued[first].access == claims;
    assert ReadSession(map[], first, t2) == None && ReadIdentity(map[], u, t2) == None;
    hide Ordered, EntryFor, LoginPair, WarmSession, WarmIdentity, DecodeToken, ReadSession, ReadIdentity;
  }

  lemma GatePlays(u: UserId, first: SessionId, t: Time, t2: Time)
    ensures
      var es := GateWrites(u, first, t, t2);
      |es| == 2 && Play(LoggedInAt(u, PendingVerification, first, t), es[..2]) == WarmedAt(u, first, t, t2)
  {
    var es := GateWrites(u, first, t, t2);
    assert es[..2] == es;
    PlayList(LoggedInAt(u, PendingVerification, first, t), es);
    hide Play, EntryFor, LoginPair;
  }

  /** Verification stopped between its commit and the purge of the identity. */
  function VerifyAt(u: UserId, first: SessionId, t3: Time): Event {
    Event(ChangeStatus(u, Active), Reads(map[], [first]), Instant(t3), 1)
  }

  function VerifiedAt(u: UserId, first: SessionId, t: Time, t2: Time): World {
    var w := WarmedAt(u, first, t, t2);
    w.(tables := ApplyDelta(w.tables, Delta(Change(u, SetStatus(Active)), map[], map[])))
  }

  lemma VerifyStep(u: UserId, first: SessionId, t: Time, t2: Time, t3: Time)
    requires 0 < t < t2 < t3 < t + REFRESH_LIFETIME
    ensures Step(WarmedAt(u, first, t, t2), t2, VerifyAt(u, first, t3), VerifiedAt(u, first, t, t2))
  {
    hide *;
    VerifyIs(u, first, t, t2, t3);
    VerifyPlays(u, first, t, t2);
    MadeStep(WarmedAt(u, first, t, t2), t2, VerifyAt(u, first, t3), ProfilePlan(u, SetStatus(Active)), Done, VerifiedAt(u, first, t, t2));
  }

  lemma VerifyIs(u: UserId, first: SessionId, t: Time, t2: Time, t3: Time)
    requires 0 < t < t2 < t3 < t + REFRESH_LIFETIME
    ensures
      var w, e := WarmedAt(u, first, t, t2), VerifyAt(u, first, t3);
      && Inputs(w, t2, e) && e.seen.cache == map[] && e.done == 1 && e.req == ChangeStatus(u, Active) && e.clock.end == t3
      && Answer(w, e) == Served(ProfilePlan(u, SetStatus(Active)), Done)
  {
    var w := WarmedAt(u, first, t, t2);
    InstantOrdered(t3);
    assert ActiveSet(w.tables, u, t3) == {first};
    hide Ordered, EntryFor, LoginPair, ActiveSet, ProfilePlan;
  }

  lemma VerifyPlays(u: UserId, first: SessionId, t: Time, t2: Time)
    ensures
      var es := ProfilePlan(u, SetStatus(Active));
      |es| == 2 && Play(WarmedAt(u, first, t, t2), es[..1]) == VerifiedAt(u, first, t, t2)
  {
    var es := ProfilePlan(u, SetStatus(Active));
    assert es[..1] == [CommitWrite(u, SetStatus(Active))];
    PlayList(WarmedAt(u, first, t, t2), es[..1]);
    hide Play, WarmedAt, ApplyDelta;
  }

  lemma VerifiedGate(u: UserId, first: SessionId, t: Time, t2: Time, t4: Time)
    requires 0 < t < t2 < t4 <= t + ACCESS_LIFETIME
    ensures
      var w := VerifiedAt(u, first, t, t2);
      var q := Gate(Signed(FirstPair(u, first, t).access));
      && ServeGate(w.tables, Reads(w.cache, []), q, Instant(t4)).result == Rejected(VerificationPending)
      && DirectGate(w.tables, q, Instant(t4)) == Admitted(IdentityOf(u, Ann(Active)))
  {
    var w, row := VerifiedAt(u, first, t, t2), FirstRow(u, t);
    var claims := FirstPair(u, first, t).access;
    assert claims.kind == Access && claims.sid == Some(first) && claims.sub == u && claims.exp == t + ACCESS_LIFETIME;
    assert DecodeToken(Signed(claims), t4) == Some(claims);
    assert w.tables.sessions[first] == row && w.tables.users[u] == Ann(Active);
    assert ReadSession(w.cache, first, t4) == Some(Project(first, row));
    assert row.expiresAt == t + REFRESH_LIFETIME && row.userId == u && row.revokedAt == None;
    assert ReadIdentity(w.cache, u, t4) == Some(IdentityOf(u, Ann(PendingVerification)));
    hide VerifiedAt, FirstPair, FirstRow, ReadSession, ReadIdentity, DecodeToken;
  }

  /**
   * A gate that errs. An unverified user logs in and tries the gate, which
   * caches their identity; verification then stops between its commit and its
   * purge. The gate goes on refusing a user whom the tables admit.
   */
  lemma StoppedVerification(u: UserId, first: SessionId, t: Time, t2: Time, t3: Time, t4: Time)
    requires 0 < t < t2 < t3 < t4 <= t + ACCESS_LIFETIME
    ensures
      var ws := [Start(u, PendingVerification), LoggedInAt(u, PendingVerification, first, t), WarmedAt(u, first, t, t2), VerifiedAt(u, first, t, t2)];
      var es := [LoginAt(first, t), GateAt(u, first, t, t2), VerifyAt(u, first, t3)];
      var q := Gate(Signed(FirstPair(u, first, t).access));
      && Run(ws, es) && ClockBefore(es, 3) < Instant(t4).begin
      && ServeGate(ws[3].tables, Reads(ws[3].cache, []), q, Instant(t4)).result == Rejected(VerificationPending)
      && DirectGate(ws[3].tables, q, Instant(t4)) == Admitted(IdentityOf(u, Ann(Active)))
  {
    hide *;
    AccessWithinChain();
    ActiveIsNoLockout();
    StartInitial(u, PendingVerification);
    LoginStep(u, PendingVerification, first, t);
    WarmStep(u, first, t, t2);
    GateIs(u, first, t, t2);
    VerifyStep(u, first, t, t2, t3);
    VerifyIs(u, first, t, t2, t3);
    ClockEnds(u, first, t, first, t2, t3);
    var e0, e1, e2 := LoginAt(first, t), GateAt(u, first, t, t2), VerifyAt(u, first, t3);
    RunOf(Start(u, PendingVerification), e0, LoggedInAt(u, PendingVerification, first, t), e1, WarmedAt(u, first, t, t2), e2,
          VerifiedAt(u, first, t, t2));
    LastClock([e0, e1, e2]);
    InstantOrdered(t4);
    VerifiedGate(u, first, t, t2, t4);
  }

  lemma AccessWithinChain()
    ensures ACCESS_LIFETIME < REFRESH_LIFETIME
  {
  }
}
