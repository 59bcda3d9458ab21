/**
 * Runs in which the cache is anything at all: every lookup answers as it likes,
 * and every request, `logout` included, may be stopped after any of its
 * effects. What holds here holds of the tables and the tokens alone.
 */
module FreeRuns {
  import opened Types
  import opened Tokens
  import opened Store
  import opened Protocol
  import opened Invariants
  import opened Commits
  import opened Requests
  import opened Runs
  import opened Transactions

  // ---- The ordered query has one answer ---------------------------------------------------

  /** With creation times all different, a set of sessions has one oldest-first listing. */
  lemma {:induction false} OneOrdering(t: Tables, a: seq<SessionId>, b: seq<SessionId>, now: Time)
    requires Dated(t, now) && NoDup(a) && NoDup(b) && OldestFirst(a, t) && OldestFirst(b, t)
    requires forall s :: s in a <==> s in b
    requires forall s | s in a :: s in t.sessions
    ensures a == b
  {
    hide Dated, OldestFirst, NoDup;
    assert b != [] ==> b[0] in a;
    if a != [] {
      assert a[0] in a && b != [];
      SameHead(t, a, b, now);
      Tails(a, b);
      TailsOrdered(t, a);
      TailsOrdered(t, b);
      assert forall s | s in a[1..] :: s in a;
      OneOrdering(t, a[1..], b[1..], now);
      assert a == [a[0]] + a[1..] && b == [b[0]] + b[1..];
    }
  }

  lemma SameHead(t: Tables, a: seq<SessionId>, b: seq<SessionId>, now: Time)
    requires Dated(t, now) && OldestFirst(a, t) && OldestFirst(b, t) && a != [] && b != []
    requires forall s :: s in a <==> s in b
    requires forall s | s in a :: s in t.sessions
    ensures a[0] == b[0]
  {
    assert a[0] in b && b[0] in a;
    var j :| 0 <= j < |b| && b[j] == a[0];
    var i :| 0 <= i < |a| && a[i] == b[0];
    assert t.sessions[b[0]].createdAt <= t.sessions[a[0]].createdAt <= t.sessions[b[0]].createdAt;
  }

  lemma TailsOrdered(t: Tables, a: seq<SessionId>)
    requires a != [] && OldestFirst(a, t)
    ensures OldestFirst(a[1..], t)
  {
  }

  lemma Tails(a: seq<SessionId>, b: seq<SessionId>)
    requires a != [] && b != [] && a[0] == b[0] && NoDup(a) && NoDup(b) && forall s :: s in a <==> s in b
    ensures NoDup(a[1..]) && NoDup(b[1..]) && forall s :: s in a[1..] <==> s in b[1..]
  {
    forall s ensures s in a[1..] <==> s in b[1..] {
      InTail(a, s);
      InTail(b, s);
    }
  }

  lemma InTail(a: seq<SessionId>, s: SessionId)
    requires a != [] && NoDup(a)
    ensures s in a[1..] <==> s in a && s != a[0]
  {
    assert a == [a[0]] + a[1..];
  }

  lemma OneAnswer(t: Tables, u: UserId, at: Time, a: seq<SessionId>, b: seq<SessionId>, now: Time)
    requires Dated(t, now) && IsActiveList(a, t, u, at) && IsActiveList(b, t, u, at)
    ensures a == b
  {
    assert forall s | s in a :: s in ActiveSet(t, u, at);
    OneOrdering(t, a, b, now);
  }

  // ---- One request, two caches --------------------------------------------------------------

  /** Answers that differ only in whether a replay was found. */
  ghost predicate SameButReplay(a: Result, b: Result) {
    a == b || ((a.Replayed? || a == Rejected(PleaseRetry)) && (b.Replayed? || b == Rejected(PleaseRetry)))
  }

  /** Everything but the gate has the same effects whatever the cache holds. */
  lemma SameEffects(w: World, v: World, e: Event, f: Event)
    requires w.tables == v.tables && e.req == f.req && e.clock == f.clock && !e.req.Gate?
    requires Queried(w.tables, e.req, e.clock).Some? ==> e.seen.active == f.seen.active
    ensures Answer(w, e).effects == Answer(v, f).effects
    ensures SameButReplay(Answer(w, e).result, Answer(v, f).result)
    ensures Answer(w, e).result != Answer(v, f).result ==>
      && e.req.RefreshToken? && e.req.token.Signed? && e.req.token.claims.jti.Some?
      && e.req.token.claims.jti.value in w.tables.sessions
      && InGrace(w.tables.sessions[e.req.token.claims.jti.value], e.clock.check)
  {
    hide LoginPlan, RotationPlan, LogoutAllPlan, LogoutPlan, LockoutPlan, ProfilePlan, RevokeAll, ReadGrace, InGrace;
  }

  /** Tables and tokens handed out, as effects change them. */
  lemma {:induction false} SameTables(w: World, v: World, es: seq<Effect>)
    requires w.tables == v.tables
    ensures Play(w, es).tables == Play(v, es).tables
    ensures w.issued == v.issued ==> Play(w, es).issued == Play(v, es).issued
  {
    if es != [] {
      SameTables(w, v, es[..|es| - 1]);
    }
  }

  // ---- Steps that trust no cache -----------------------------------------------------------

  /** The tables and tokens, without a cache. */
  ghost function Bare(w: World): World {
    World(w.tables, map[], w.issued)
  }

  /** The request's effects on tables and tokens take place as far as it got; nothing is said of any cache. */
  ghost predicate FreeStep(w: World, before: Time, e: Event, w': World) {
    && Inputs(w, before, e)
    && e.done <= |Answer(w, e).effects|
    && Bare(w') == Bare(Play(w, Answer(w, e).effects[..e.done]))
  }

  ghost predicate FreeRun(ws: seq<World>, es: seq<Event>) {
    && |ws| == |es| + 1
    && Initial(Bare(ws[0]))
    && forall i | 0 <= i < |es| :: FreeStep(ws[i], ClockBefore(es, i), es[i], ws[i + 1])
  }

  /** A run is a free run. */
  lemma RunIsFree(ws: seq<World>, es: seq<Event>)
    requires Run(ws, es)
    ensures FreeRun(ws, es)
  {
    hide Step, Initial, FreeStep;
    FirstIsFree(ws[0]);
    forall i | 0 <= i < |es| ensures FreeStep(ws[i], ClockBefore(es, i), es[i], ws[i + 1]) {
      StepIsFree(ws[i], ClockBefore(es, i), es[i], ws[i + 1]);
    }
  }

  lemma FirstIsFree(w: World)
    requires Initial(w)
    ensures Initial(Bare(w))
  {
  }

  lemma StepIsFree(w: World, before: Time, e: Event, w': World)
    requires Step(w, before, e, w')
    ensures FreeStep(w, before, e, w')
  {
    hide Answer, Inputs, Play, RevokesFirst;
    StepParts(w, before, e, w');
    BelowTables(w', Play(w, Answer(w, e).effects[..e.done]));
  }

  /**
   * The same request with nothing cached. One that publishes revocations first,
   * and did publish them, is taken to finish: what it left undone is in the cache.
   */
  ghost function Plain(w: World, e: Event): Event {
    var f := e.(seen := Reads(map[], e.seen.active));
    if RevokesFirst(Bare(w), f) && e.done != 0 then f.(done := |Answer(w, e).effects|) else f
  }

  /** Whether the request got as far as its commit. */
  ghost predicate Committed(w: World, e: Event) {
    exists k :: 0 <= k < e.done && k < |Answer(w, e).effects| && Answer(w, e).effects[k].Commit?
  }

  lemma {:induction false} PutsKeepTables(w: World, es: seq<Effect>)
    requires forall i | 0 <= i < |es| :: es[i].Put?
    ensures Bare(Play(w, es)) == Bare(w)
  {
    if es != [] {
      assert forall i | 0 <= i < |es| - 1 :: es[..|es| - 1][i] == es[i];
      PutsKeepTables(w, es[..|es| - 1]);
    }
  }

  lemma GatePuts(w: World, e: Event)
    requires e.req.Gate?
    ensures forall i | 0 <= i < |Answer(w, e).effects| :: Answer(w, e).effects[i].Put?
  {
    hide ReadSession, ReadIdentity, EntryFor;
  }

  /** A request that revokes first commits before anything else. */
  lemma RevokesAtOnce(w: World, e: Event)
    requires RevokesFirst(w, e) && Answer(w, e).effects != []
    ensures Answer(w, e).effects[0].Commit? && forall i | 0 < i < |Answer(w, e).effects| :: Answer(w, e).effects[i].Del?
  {
    hide RevokeAll, LogoutRevoke, ReadGrace, InGrace, RotationPlan;
  }

  lemma {:induction false} DelsKeepTables(w: World, es: seq<Effect>, k: nat)
    requires 0 < k <= |es| && forall i | 0 < i < |es| :: es[i].Del?
    ensures Bare(Play(w, es)) == Bare(Play(w, es[..k]))
    decreases |es|
  {
    if k == |es| {
      assert es[..k] == es;
    } else {
      var front := es[..|es| - 1];
      assert forall i | 0 < i < |front| :: front[i] == es[i];
      assert front[..k] == es[..k];
      DelsKeepTables(w, front, k);
    }
  }

  /** What cached tables and tokens become depends on the effects alone. */
  lemma PlayBare(w: World, es: seq<Effect>)
    ensures Bare(Play(w, es)) == Bare(Play(Bare(w), es))
  {
    SameTables(w, Bare(w), es);
  }

  lemma SameInputs(w: World, before: Time, e: Event)
    requires Inputs(w, before, e)
    ensures Inputs(Bare(w), before, Plain(w, e))
  {
    hide Answer, RevokesFirst, IsActiveList, Ordered, Queried;
  }

  /** A free step changes neither tables nor tokens, or it is an honest step without a cache. */
  lemma FreeStepCases(w: World, before: Time, e: Event, w': World)
    requires FreeStep(w, before, e, w')
    ensures if e.req.Gate? || e.done == 0 then Bare(w') == Bare(w) else Step(Bare(w), before, Plain(w, e), Bare(w'))
  {
    hide *;
    FreeParts(w, before, e, w');
    var es := Answer(w, e).effects;
    if e.req.Gate? {
      GatePuts(w, e);
      assert forall i | 0 <= i < e.done :: es[..e.done][i] == es[i];
      PutsKeepTables(w, es[..e.done]);
    } else if e.done == 0 {
      assert es[..0] == [];
      PlayNothing(w);
    } else {
      SameInputs(w, before, e);
      PlainParts(w, e);
      var f := Plain(w, e);
      SameEffects(w, Bare(w), e, f);
      PlainRevokes(w, e);
      if RevokesFirst(Bare(w), f) {
        RevokesAtOnce(Bare(w), f);
        DelsKeepTables(w, es, e.done);
        assert es[..|es|] == es;
      }
      PlayBare(w, es[..f.done]);
      BareBelow(w', Play(Bare(w), es[..f.done]));
      StepFrom(Bare(w), before, f, Bare(w'));
    }
  }

  lemma FreeParts(w: World, before: Time, e: Event, w': World)
    requires FreeStep(w, before, e, w')
    ensures Inputs(w, before, e) && e.done <= |Answer(w, e).effects|
    ensures Bare(w') == Bare(Play(w, Answer(w, e).effects[..e.done]))
  {
    hide Inputs, Answer, Play;
  }

  lemma PlainParts(w: World, e: Event)
    ensures Plain(w, e).req == e.req && Plain(w, e).clock == e.clock && Plain(w, e).seen == Reads(map[], e.seen.active)
    ensures Bare(w).tables == w.tables && Bare(w).issued == w.issued
  {
    hide Answer, RevokesFirst;
  }

  lemma PlainRevokes(w: World, e: Event)
    requires e.done != 0
    ensures Plain(w, e).done == if RevokesFirst(Bare(w), Plain(w, e)) then |Answer(w, e).effects| else e.done
  {
    hide Serve;
  }

  lemma BareBelow(w: World, v: World)
    requires Bare(w) == Bare(v)
    ensures Below(Bare(w), v)
  {
  }

  lemma StepFrom(w: World, before: Time, e: Event, w': World)
    requires Inputs(w, before, e) && e.seen.cache == map[] && e.done <= |Answer(w, e).effects|
    requires RevokesFirst(w, e) ==> e.done == |Answer(w, e).effects|
    requires Below(w', Play(w, Answer(w, e).effects[..e.done]))
    ensures Step(w, before, e, w')
  {
    hide Inputs, Answer, RevokesFirst, Play, Below;
  }

  /** In every world of a free run the tables and tokens are in order. */
  lemma {:induction false} FreeReachable(ws: seq<World>, es: seq<Event>, i: nat)
    requires FreeRun(ws, es) && i <= |es|
    ensures Inv(Bare(ws[i]), ClockBefore(es, i))
  {
    hide Inv, FreeStep, Initial, Step;
    if i == 0 {
      InitialOk(Bare(ws[0]));
    } else {
      FreeReachable(ws, es, i - 1);
      FreeStepKeeps(ws[i - 1], ClockBefore(es, i - 1), es[i - 1], ws[i]);
    }
  }

  lemma FreeStepKeeps(w: World, before: Time, e: Event, w': World)
    requires Inv(Bare(w), before) && FreeStep(w, before, e, w')
    ensures Inv(Bare(w'), e.clock.end)
  {
    hide *;
    FreeStepCases(w, before, e, w');
    FreeParts(w, before, e, w');
    InputsClock(w, e, before);
    PlainParts(w, e);
    if Step(Bare(w), before, Plain(w, e), Bare(w')) {
      StepKeepsInv(Bare(w), before, Plain(w, e), Bare(w'));
    } else {
      InvLater(Bare(w), before, e.clock.end);
    }
  }

  lemma BareIs(w: World)
    ensures Bare(w).tables == w.tables && Bare(w).issued == w.issued
  {
  }

  lemma BareTables(w: World, now: Time)
    requires Inv(Bare(w), now)
    ensures TablesOk(w.tables, now) && TokensOwned(w)
  {
    hide TablesOk;
  }
}
