/** The tables never depend on what the cache holds, has lost, or answers. */
module Independence {
  import opened Types
  import opened Tokens
  import opened Store
  import opened Protocol
  import opened Invariants
  import opened Commits
  import opened Requests
  import opened Runs
  import opened Transactions
  import opened FreeRuns
  import opened Gatekeeping

  /** Two readings of one request over equal tables see the same list of active sessions. */
  lemma SameList(w: World, v: World, e: Event, f: Event, before: Time, before': Time)
    requires Dated(w.tables, before) && Inputs(w, before, e) && Inputs(v, before', f)
    requires w.tables == v.tables && e.req == f.req && e.clock == f.clock
    ensures Queried(w.tables, e.req, e.clock).Some? ==> e.seen.active == f.seen.active
  {
    hide IsActiveList, Ordered, Queried;
    if Queried(w.tables, e.req, e.clock).Some? {
      OneAnswer(w.tables, Queried(w.tables, e.req, e.clock).value, e.clock.query, e.seen.active, f.seen.active, before);
    }
  }

  /** One request over equal tables and any two caches, stopped at the same point unless it is a gate call. */
  lemma StepIndependent(w: World, v: World, before: Time, before': Time, e: Event, f: Event, w': World, v': World)
    requires Inv(Bare(w), before) && FreeStep(w, before, e, w') && FreeStep(v, before', f, v')
    requires w.tables == v.tables && e.req == f.req && e.clock == f.clock && (e.req.Gate? || e.done == f.done)
    ensures w'.tables == v'.tables
    ensures w.issued == v.issued ==> w'.issued == v'.issued
    ensures !e.req.Gate? ==> SameButReplay(Answer(w, e).result, Answer(v, f).result)
    ensures Answer(w, e).result != Answer(v, f).result && !e.req.Gate? ==>
      && e.req.RefreshToken? && e.req.token.Signed? && e.req.token.claims.jti.Some?
      && e.req.token.claims.jti.value in w.tables.sessions
      && InGrace(w.tables.sessions[e.req.token.claims.jti.value], e.clock.check)
  {
    hide *;
    FreeParts(w, before, e, w');
    FreeParts(v, before', f, v');
    BareIs(w);
    BareIs(v);
    BareIs(w');
    BareIs(v');
    if e.req.Gate? {
      FreeStepCases(w, before, e, w');
      FreeStepCases(v, before', f, v');
    } else {
      BareTables(w, before);
      DatedOf(w.tables, before);
      SameList(w, v, e, f, before, before');
      SameEffects(w, v, e, f);
      BareIs(Play(w, Answer(w, e).effects[..e.done]));
      BareIs(Play(v, Answer(v, f).effects[..f.done]));
      SameTables(w, v, Answer(w, e).effects[..e.done]);
    }
  }

  lemma DatedOf(t: Tables, now: Time)
    requires TablesOk(t, now)
    ensures Dated(t, now)
  {
    hide Dated, UniqueNames, Lockout, Linked, WithinLimit;
  }

  /**
   * From worlds with equal tables, reached by any two free runs, the runs serve
   * the same `n` requests at the same times, stopping them at the same points;
   * where gate calls stop does not matter.
   */
  ghost predicate SameRequests(ws: seq<World>, es: seq<Event>, i: nat, vs: seq<World>, fs: seq<Event>, j: nat, n: nat) {
    && FreeRun(ws, es) && FreeRun(vs, fs) && i + n <= |es| && j + n <= |fs|
    && ws[i].tables == vs[j].tables
    && forall k | 0 <= k < n :: SameRequest(es, i, fs, j, k)
  }

  ghost predicate SameRequest(es: seq<Event>, i: nat, fs: seq<Event>, j: nat, k: nat) {
    && i + k < |es| && j + k < |fs|
    && var e, f := es[i + k], fs[j + k];
       e.req == f.req && e.clock == f.clock && (e.req.Gate? || e.done == f.done)
  }

  /** Whatever the two caches hold, have lost, or answer, the tables stay equal, and so do the tokens. */
  lemma {:induction false} TablesIgnoreCache(ws: seq<World>, es: seq<Event>, i: nat, vs: seq<World>, fs: seq<Event>, j: nat, n: nat)
    requires SameRequests(ws, es, i, vs, fs, j, n)
    ensures ws[i + n].tables == vs[j + n].tables
    ensures ws[i].issued == vs[j].issued ==> ws[i + n].issued == vs[j + n].issued
  {
    if n == 0 {
      assert ws[i + n] == ws[i] && vs[j + n] == vs[j];
    } else {
      FewerRequests(ws, es, i, vs, fs, j, n, n - 1);
      TablesIgnoreCache(ws, es, i, vs, fs, j, n - 1);
      RequestAt(ws, es, i, vs, fs, j, n, n - 1);
      var w, v := i + (n - 1), j + (n - 1);
      hide *;
      FreeReachable(ws, es, w);
      StepIndependent(ws[w], vs[v], ClockBefore(es, w), ClockBefore(fs, v), es[w], fs[v], ws[w + 1], vs[v + 1]);
    }
  }

  lemma FewerRequests(ws: seq<World>, es: seq<Event>, i: nat, vs: seq<World>, fs: seq<Event>, j: nat, n: nat, k: nat)
    requires SameRequests(ws, es, i, vs, fs, j, n) && k <= n
    ensures SameRequests(ws, es, i, vs, fs, j, k)
  {
    hide FreeRun, SameRequest;
  }

  /** The two runs at one of their common requests. */
  lemma RequestAt(ws: seq<World>, es: seq<Event>, i: nat, vs: seq<World>, fs: seq<Event>, j: nat, n: nat, k: nat)
    requires SameRequests(ws, es, i, vs, fs, j, n) && k < n
    ensures FreeRun(ws, es) && FreeRun(vs, fs) && i + k < |es| && j + k < |fs| && |ws| == |es| + 1 && |vs| == |fs| + 1
    ensures FreeStep(ws[i + k], ClockBefore(es, i + k), es[i + k], ws[i + k + 1])
    ensures FreeStep(vs[j + k], ClockBefore(fs, j + k), fs[j + k], vs[j + k + 1])
    ensures es[i + k].req == fs[j + k].req && es[i + k].clock == fs[j + k].clock && (es[i + k].req.Gate? || es[i + k].done == fs[j + k].done)
  {
    hide FreeStep, Initial;
    assert SameRequest(es, i, fs, j, k);
  }

  /** ... and every request is answered alike, but for a replay found or missed inside the grace window. */
  lemma AnswersIgnoreCache(ws: seq<World>, es: seq<Event>, i: nat, vs: seq<World>, fs: seq<Event>, j: nat, n: nat, k: nat)
    requires SameRequests(ws, es, i, vs, fs, j, n) && k < n && !es[i + k].req.Gate?
    ensures SameButReplay(Answer(ws[i + k], es[i + k]).result, Answer(vs[j + k], fs[j + k]).result)
    ensures Answer(ws[i + k], es[i + k]).result != Answer(vs[j + k], fs[j + k]).result ==>
      var q := es[i + k].req;
      && q.RefreshToken? && q.token.Signed? && q.token.claims.jti.Some?
      && q.token.claims.jti.value in ws[i + k].tables.sessions
      && InGrace(ws[i + k].tables.sessions[q.token.claims.jti.value], es[i + k].clock.check)
  {
    FewerRequests(ws, es, i, vs, fs, j, n, k);
    TablesIgnoreCache(ws, es, i, vs, fs, j, k);
    RequestAt(ws, es, i, vs, fs, j, n, k);
    hide *;
    FreeReachable(ws, es, i + k);
    StepIndependent(ws[i + k], vs[j + k], ClockBefore(es, i + k), ClockBefore(fs, j + k), es[i + k], fs[j + k],
                    ws[i + k + 1], vs[j + k + 1]);
  }

  /** With honest caches and settled identities, gates over equal tables answer alike, whatever each finds cached. */
  lemma GateAnswersIgnoreCache(ws: seq<World>, es: seq<Event>, i: nat, r: Reads, vs: seq<World>, fs: seq<Event>, j: nat, r': Reads,
                               q: Request, c: Clock)
    requires SettledRun(ws, es) && SettledRun(vs, fs) && i <= |es| && j <= |fs| && ws[i].tables == vs[j].tables
    requires q.Gate? && Ordered(c) && ClockBefore(es, i) < c.begin && ClockBefore(fs, j) < c.begin
    requires Submap(r.cache, ws[i].cache) && Submap(r'.cache, vs[j].cache)
    ensures ServeGate(ws[i].tables, r, q, c).result == ServeGate(vs[j].tables, r', q, c).result
  {
    hide *;
    GateRefines(ws, es, i, r, q, c);
    GateRefines(vs, fs, j, r', q, c);
  }
}
