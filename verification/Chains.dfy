/** Rotation chains: linear, one live session each, and bounded by the login's expiry. */
module Chains {
  import opened Types
  import opened Tokens
  import opened Store
  import opened Protocol
  import opened Invariants
  import opened Commits
  import opened Requests
  import opened Runs
  import opened Transactions
  import opened FreeRuns
  import opened Gatekeeping

  /** The login a session descends from; following predecessors ends because they are ever older. */
  ghost function Root(t: Tables, s: SessionId): (r: SessionId)
    requires Linked(t) && s in t.sessions
    ensures r in t.sessions && t.sessions[r].previous.None?
    decreases t.sessions[s].createdAt
  {
    if t.sessions[s].previous.None? then s
    else
      assert LinkOk(t, s, t.sessions[s].previous.value);
      Root(t, t.sessions[s].previous.value)
  }

  /** How many rotations separate a session from its login. */
  ghost function Depth(t: Tables, s: SessionId): nat
    requires Linked(t) && s in t.sessions
    decreases t.sessions[s].createdAt
  {
    if t.sessions[s].previous.None? then 0
    else
      assert LinkOk(t, s, t.sessions[s].previous.value);
      1 + Depth(t, t.sessions[s].previous.value)
  }

  /** A chain never forks: one session per login and depth. */
  lemma {:induction false} NoForks(t: Tables, a: SessionId, b: SessionId)
    requires Linked(t) && a in t.sessions && b in t.sessions
    requires Root(t, a) == Root(t, b) && Depth(t, a) == Depth(t, b)
    ensures a == b
    decreases Depth(t, a)
  {
    if t.sessions[a].previous.Some? && t.sessions[b].previous.Some? {
      var p, q := t.sessions[a].previous.value, t.sessions[b].previous.value;
      assert LinkOk(t, a, p) && LinkOk(t, b, q);
      NoForks(t, p, q);
    }
  }

  /** Every session above another in its chain has been revoked. */
  lemma {:induction false} AncestorsRevoked(t: Tables, a: SessionId, b: SessionId)
    requires Linked(t) && a in t.sessions && b in t.sessions
    requires Root(t, a) == Root(t, b) && Depth(t, a) < Depth(t, b)
    ensures t.sessions[a].revokedAt.Some?
    decreases Depth(t, b)
  {
    var p := t.sessions[b].previous.value;
    assert LinkOk(t, b, p);
    if Depth(t, a) == Depth(t, p) {
      NoForks(t, a, p);
    } else {
      AncestorsRevoked(t, a, p);
    }
  }

  /** The chain keeps its login's user and expiry. */
  lemma {:induction false} ChainInherits(t: Tables, s: SessionId)
    requires Linked(t) && s in t.sessions
    ensures t.sessions[s].userId == t.sessions[Root(t, s)].userId
    ensures t.sessions[s].expiresAt == t.sessions[Root(t, s)].expiresAt
    decreases t.sessions[s].createdAt
  {
    if t.sessions[s].previous.Some? {
      assert LinkOk(t, s, t.sessions[s].previous.value);
      ChainInherits(t, t.sessions[s].previous.value);
    }
  }

  /** At most one session of a login is unrevoked: the last of its chain. */
  lemma OneLivePerLogin(t: Tables, a: SessionId, b: SessionId)
    requires Linked(t) && a in t.sessions && b in t.sessions && Root(t, a) == Root(t, b)
    requires t.sessions[a].revokedAt.None?
    ensures Depth(t, b) <= Depth(t, a)
    ensures t.sessions[b].revokedAt.None? ==> a == b
  {
    if Depth(t, a) < Depth(t, b) {
      AncestorsRevoked(t, a, b);
    } else if Depth(t, b) < Depth(t, a) {
      AncestorsRevoked(t, b, a);
    } else {
      NoForks(t, a, b);
    }
  }

  /** In every world of a free run the chains are in order, so all of the above holds of it. */
  lemma ReachableChains(ws: seq<World>, es: seq<Event>, i: nat)
    requires FreeRun(ws, es) && i <= |es|
    ensures Linked(ws[i].tables)
  {
    hide Inv, FreeStep, Initial, Bare, Linked;
    FreeReachable(ws, es, i);
    BareIs(ws[i]);
    LinkedOfInv(Bare(ws[i]), ClockBefore(es, i));
  }

  lemma LinkedOfInv(w: World, now: Time)
    requires Inv(w, now)
    ensures Linked(w.tables)
  {
  }

  /** In any reachable world at most one session per login is admitted. */
  lemma OneAdmittedPerLogin(ws: seq<World>, es: seq<Event>, i: nat,
                            r: Reads, q: Request, c: Clock, r': Reads, q': Request, c': Clock)
    requires Run(ws, es) && i <= |es| && q.Gate? && q'.Gate?
    requires Ordered(c) && ClockBefore(es, i) < c.begin && SeesSessions(r, ws[i])
    requires Ordered(c') && ClockBefore(es, i) < c'.begin && SeesSessions(r', ws[i])
    requires ServeGate(ws[i].tables, r, q, c).result.Admitted?
    requires ServeGate(ws[i].tables, r', q', c').result.Admitted?
    ensures
      var t := ws[i].tables;
      var s, s' := q.token.claims.sid, q'.token.claims.sid;
      && Linked(t) && s.Some? && s'.Some? && s.value in t.sessions && s'.value in t.sessions
      && (Root(t, s.value) == Root(t, s'.value) ==> s == s')
  {
    hide Step, Initial, Inv, Linked, ServeGate, SeesSessions, Ordered, Root, Depth;
    Reachable(ws, es, i);
    LinkedOfInv(ws[i], ClockBefore(es, i));
    AdmittedHolds(ws[i], ClockBefore(es, i), r, q, c);
    AdmittedHolds(ws[i], ClockBefore(es, i), r', q', c');
    var t := ws[i].tables;
    var s, s' := q.token.claims.sid.value, q'.token.claims.sid.value;
    if Root(t, s) == Root(t, s') {
      OneLivePerLogin(t, s, s');
    }
  }

  // ---- Lifetime ----------------------------------------------------------------------------

  lemma RemainingFits(expiresAt: Time, check: Time, window: Time, mint: Time)
    requires check <= window <= mint && check <= expiresAt
    ensures mint + RemainingSeconds(expiresAt, window) * SECOND <= expiresAt + (mint - check)
    ensures expiresAt < mint + RemainingSeconds(expiresAt, window) * SECOND + 1_000_000
  {
  }

  /**
   * A rotation happens only while the login's expiry has not passed, hands that
   * expiry on, and mints a refresh token that outlives it by no more than the
   * time since the expiry check, and falls short of it by less than a second.
   */
  lemma ChainLifetime(w: World, before: Time, e: Event)
    requires Inv(Bare(w), before) && Inputs(w, before, e) && Answer(w, e).result.Rotated?
    ensures e.req.RefreshToken? && e.req.token.Signed? && e.req.token.claims.jti.Some?
    ensures Linked(w.tables) && e.req.token.claims.jti.value in w.tables.sessions
    ensures
      var s := e.req.token.claims.jti.value;
      var limit := w.tables.sessions[Root(w.tables, s)].expiresAt;
      && e.clock.check <= limit
      && RotatedRow(s, w.tables.sessions[s], e.req.token.claims.sub, e.req.ip, e.clock).expiresAt == limit
      && Answer(w, e).result.pair.refresh.exp <= limit + (e.clock.mintRefresh - e.clock.check)
      && limit < Answer(w, e).result.pair.refresh.exp + 1_000_000
  {
    hide Inv, Linked, Inputs, Answer, RevokesFirst, InGrace, TokensOwned, RotationPlan, Root, RemainingSeconds, Bare;
    BareIs(w);
    LinkedOfInv(Bare(w), before);
    BareTables(w, before);
    RotatedKind(w, e);
    RefreshShape(w, e, before);
    RefreshAnswer(w, e);
    NotCreating(w, e);
    MintAfterCheck(w, before, e);
    var s := e.req.token.claims.jti.value;
    ChainInherits(w.tables, s);
    RemainingFits(w.tables.sessions[s].expiresAt, e.clock.check, e.clock.window, e.clock.mintRefresh);
  }

  lemma MintAfterCheck(w: World, before: Time, e: Event)
    requires Inputs(w, before, e)
    ensures e.clock.check <= e.clock.window <= e.clock.mintRefresh
  {
  }

  lemma RotatedKind(w: World, e: Event)
    requires Answer(w, e).result.Rotated?
    ensures e.req.RefreshToken?
  {
    if e.req.Login? {
      LoginAnswer(w, e);
    } else if !e.req.RefreshToken? {
      PlainAnswer(w, e);
    }
  }

  // ---- The device limit ----------------------------------------------------------------------

  /** In every world of a free run a user has at most five active sessions. */
  lemma DeviceLimit(ws: seq<World>, es: seq<Event>, i: nat, u: UserId, now: Time)
    requires FreeRun(ws, es) && i <= |es| && ClockBefore(es, i) <= now
    ensures |ActiveSet(ws[i].tables, u, now)| <= 5
  {
    hide FreeStep, Initial, Inv, ActiveSet, Bare;
    FreeReachable(ws, es, i);
    InvLater(Bare(ws[i]), ClockBefore(es, i), now);
    BareIs(ws[i]);
    LimitOfInv(Bare(ws[i]), u, now);
  }

  lemma LimitOfInv(w: World, u: UserId, now: Time)
    requires Inv(w, now)
    ensures |ActiveSet(w.tables, u, now)| <= DEVICE_LIMIT
  {
  }

  /**
   * A login keeps the newest four of the active sessions, however many there
   * were, and adds one.
   */
  lemma LoginLeavesFive(t: Tables, u: UserId, active: seq<SessionId>, device: Option<string>, ip: Option<string>,
                        newId: SessionId, c: Clock)
    requires Ordered(c) && IsActiveList(active, t, u, c.query) && newId !in t.sessions
    ensures
      var t' := ApplyDelta(t, LoginDelta(u, active, device, ip, newId, c));
      var n := |ActiveSet(t, u, c.query)|;
      && |ActiveSet(t', u, c.query)| == (if n < 5 then n else 4) + 1
      && (forall s, k | s in ActiveSet(t, u, c.query) - ActiveSet(t', u, c.query) && k in ActiveSet(t, u, c.query) * ActiveSet(t', u, c.query) ::
            t.sessions[s].createdAt <= t.sessions[k].createdAt)
      && (forall v | v != u :: ActiveSet(t', v, c.query) == ActiveSet(t, v, c.query))
  {
    hide *;
    Limits();
    EvictionKeepsFour(active);
    var kept := active[|Evicted(active)|..];
    ActiveAfterLogin(t, u, active, device, ip, newId, c);
    KeptIsSuffix(t, active, u, c);
    ActiveIsList(t, u, active, newId, c.query);
    CountsAre(ActiveSet(t, u, c.query), active);
    assert ActiveSet(ApplyDelta(t, LoginDelta(u, active, device, ip, newId, c)), u, c.query) == (set s | s in kept) + {newId};
    CountsAre((set s | s in kept), kept);
    assert newId !in kept;
  }

  lemma CountsAre(all: set<SessionId>, l: seq<SessionId>)
    requires NoDup(l) && all == set s | s in l
    ensures |all| == |l|
  {
    hide NoDup;
    SeqSetSize(l);
  }

  lemma ActiveIsList(t: Tables, u: UserId, active: seq<SessionId>, newId: SessionId, now: Time)
    requires IsActiveList(active, t, u, now) && newId !in t.sessions
    ensures ActiveSet(t, u, now) == (set s | s in active) && newId !in active
    ensures forall s :: s in active <==> s in t.sessions && IsActiveFor(t.sessions[s], u, now)
  {
    hide NoDup, OldestFirst;
  }

  lemma SplitList(l: seq<SessionId>, n: nat, t: Tables)
    requires n <= |l| && NoDup(l) && OldestFirst(l, t) && forall s | s in l :: s in t.sessions
    ensures NoDup(l[n..])
    ensures forall s :: s in l <==> s in l[..n] || s in l[n..]
    ensures forall s, k | s in l[..n] && k in l[n..] ::
              s != k && s in t.sessions && k in t.sessions && t.sessions[s].createdAt <= t.sessions[k].createdAt
  {
    assert l == l[..n] + l[n..];
    forall s, k | s in l[..n] && k in l[n..]
      ensures s != k && s in t.sessions && k in t.sessions && t.sessions[s].createdAt <= t.sessions[k].createdAt
    {
      var i :| 0 <= i < n && l[..n][i] == s;
      var j :| 0 <= j < |l| - n && l[n..][j] == k;
      assert l[i] == s && l[n + j] == k;
    }
  }

  /** The kept and the dropped part the active list between them, oldest dropped first. */
  lemma KeptIsSuffix(t: Tables, active: seq<SessionId>, u: UserId, c: Clock)
    requires IsActiveList(active, t, u, c.query)
    ensures NoDup(active) && NoDup(active[|Evicted(active)|..])
    ensures forall s :: s in active <==> s in Evicted(active) || s in active[|Evicted(active)|..]
    ensures forall s, k | s in Evicted(active) && k in active[|Evicted(active)|..] ::
              s != k && s in t.sessions && k in t.sessions && t.sessions[s].createdAt <= t.sessions[k].createdAt
  {
    hide OldestFirst, NoDup;
    SplitList(active, |Evicted(active)|, t);
    assert Evicted(active) == active[..|Evicted(active)|];
  }

  lemma ActiveAfterLogin(t: Tables, u: UserId, active: seq<SessionId>, device: Option<string>, ip: Option<string>,
                         newId: SessionId, c: Clock)
    requires Ordered(c) && IsActiveList(active, t, u, c.query) && newId !in t.sessions
    ensures
      var t' := ApplyDelta(t, LoginDelta(u, active, device, ip, newId, c));
      && (forall s :: s in ActiveSet(t', u, c.query) <==> s == newId || s in active[|Evicted(active)|..])
      && (forall v | v != u :: ActiveSet(t', v, c.query) == ActiveSet(t, v, c.query))
  {
    hide Evicted, EvictMap, IsActiveList, OldestFirst, NoDup;
    EvictMapFacts(Evicted(active), c);
    KeptIsSuffix(t, active, u, c);
    ActiveIsList(t, u, active, newId, c.query);
  }

  /** A rotation leaves the number of active sessions of every user as it was. */
  lemma RotationKeepsCount(t: Tables, s: SessionId, ip: Option<string>, newId: SessionId, c: Clock, u: UserId, now: Time)
    requires s in t.sessions && t.sessions[s].revokedAt.None? && newId !in t.sessions
    ensures |ActiveSet(ApplyDelta(t, RotationDelta(s, t.sessions[s], t.sessions[s].userId, ip, newId, c)), u, now)|
         == |ActiveSet(t, u, now)|
  {
    var row := t.sessions[s];
    var was := ActiveSet(t, u, now);
    var then_ := ActiveSet(ApplyDelta(t, RotationDelta(s, row, row.userId, ip, newId, c)), u, now);
    assert newId !in was;
    if s in was {
      assert then_ == was - {s} + {newId};
    } else {
      assert then_ == was;
    }
  }
}
