/** Atomic requests are schedules of interleaved ones; and what interleaving can break. */
module Schedules {
  import opened Types
  import opened Tokens
  import opened Store
  import opened Protocol
  import opened Invariants
  import opened Commits
  import opened Requests
  import opened Runs
  import opened Transactions
  import I = Interleaving

  ghost predicate Leads(a: I.System, b: I.System) {
    exists choices :: I.Schedule(a, choices) == b
  }

  lemma {:induction false} ScheduleConcat(b: I.System, first: seq<I.Choice>, second: seq<I.Choice>)
    ensures I.Schedule(b, first + second) == I.Schedule(I.Schedule(b, first), second)
  {
    hide I.Next;
    if second == [] {
      assert first + second == first;
    } else {
      var front, last := second[..|second| - 1], second[|second| - 1];
      assert (first + second)[..|first + second| - 1] == first + front;
      ScheduleConcat(b, first, front);
    }
  }

  lemma LeadsTransitive(a: I.System, b: I.System, c: I.System)
    requires Leads(a, b) && Leads(b, c)
    ensures Leads(a, c)
  {
    hide I.Schedule;
    var first :| I.Schedule(a, first) == b;
    var second :| I.Schedule(b, second) == c;
    ScheduleConcat(a, first, second);
  }

  lemma LeadsSelf(a: I.System)
    ensures Leads(a, a)
  {
    hide I.Next;
    assert I.Schedule(a, []) == a;
  }

  lemma LeadsNext(a: I.System, choice: I.Choice)
    ensures Leads(a, I.Next(a, choice))
  {
    hide I.Next;
    assert [choice][..0] == [];
    assert I.Schedule(a, []) == a;
    assert I.Schedule(a, [choice]) == I.Next(a, choice);
  }

  // ---- One process running alone ------------------------------------------------------

  /** The system in which process `id` is at `phase`. */
  ghost function With(w: World, procs: map<nat, I.Proc>, id: nat, p: I.Proc, phase: I.Phase): I.System {
    I.System(w, procs[id := p.(phase := phase)])
  }

  lemma RunLeads(w: World, procs: map<nat, I.Proc>, id: nat, p: I.Proc, from: I.Phase, active: seq<SessionId>, hit: bool)
    requires I.AnswerOk(w, p.(phase := from), active)
    ensures var (w', phase) := I.Advance(w, p.(phase := from), active, hit);
            Leads(With(w, procs, id, p, from), With(w', procs, id, p, phase))
  {
    hide I.Advance, I.AnswerOk, Leads;
    var a := With(w, procs, id, p, from);
    var (w', phase) := I.Advance(w, p.(phase := from), active, hit);
    LeadsNext(a, I.Run(id, active, hit));
    assert a.procs[id := a.procs[id].(phase := phase)] == procs[id := p.(phase := phase)];
  }

  lemma ArriveLeads(w: World, procs: map<nat, I.Proc>, id: nat, q: Request, c: Clock)
    requires id !in procs && TokenOk(w, q)
    ensures Leads(I.System(w, procs), With(w, procs, id, I.Proc(q, c, I.Start), I.Start))
  {
    hide Leads, TokenOk;
    LeadsNext(I.System(w, procs), I.Arrive(id, q, c));
  }

  lemma PresentedToken(w: World, before: Time, e: Event)
    requires Inputs(w, before, e)
    ensures TokenOk(w, e.req)
  {
    hide TokenOk, IsActiveList, Ordered;
  }

  /** The process is dropped, and cache entries are lost. */
  lemma LeaveLeads(w: World, procs: map<nat, I.Proc>, id: nat, p: I.Proc, phase: I.Phase, w': World)
    requires id !in procs && Below(w', w)
    ensures Leads(With(w, procs, id, p, phase), I.System(w', procs))
  {
    hide Leads;
    var a := With(w, procs, id, p, phase);
    LeadsNext(a, I.Abort(id));
    assert a.procs - {id} == procs;
    var b := I.System(w, procs);
    LeadsNext(b, I.Lose(w.cache.Keys - w'.cache.Keys));
    assert w.cache - (w.cache.Keys - w'.cache.Keys) == w'.cache;
    LeadsTransitive(a, b, I.System(w', procs));
  }

  ghost predicate Accepted(w: World, es: seq<Effect>, k: nat) {
    forall j | 0 <= j < k && j < |es| && es[j].Commit? :: I.Accepts(Play(w, es[..j]).tables, es[j].delta)
  }

  /** Queued effects take place one by one. */
  lemma {:induction false} DrainLeads(w: World, procs: map<nat, I.Proc>, id: nat, p: I.Proc, es: seq<Effect>, k: nat)
    requires k <= |es| && Accepted(w, es, k)
    ensures Leads(With(w, procs, id, p, I.Queue(es)), With(Play(w, es[..k]), procs, id, p, I.Queue(es[k..])))
  {
    hide Leads, With, I.Accepts, Play;
    if k == 0 {
      assert es[..0] == [] && es[0..] == es;
      PlayNothing(w);
      LeadsSelf(With(w, procs, id, p, I.Queue(es)));
    } else {
      DrainLeads(w, procs, id, p, es, k - 1);
      PlayNext(w, es, k - 1);
      var mid := Play(w, es[..k - 1]);
      assert es[k - 1..][0] == es[k - 1] && es[k - 1..][1..] == es[k..];
      WriteLeads(mid, procs, id, p, es[k - 1..]);
      LeadsTransitive(With(w, procs, id, p, I.Queue(es)), With(mid, procs, id, p, I.Queue(es[k - 1..])),
                      With(Play(w, es[..k]), procs, id, p, I.Queue(es[k..])));
    }
  }

  lemma WriteLeads(w: World, procs: map<nat, I.Proc>, id: nat, p: I.Proc, es: seq<Effect>)
    requires es != [] && (es[0].Commit? ==> I.Accepts(w.tables, es[0].delta))
    ensures Leads(With(w, procs, id, p, I.Queue(es)), With(Apply(w, es[0]), procs, id, p, I.Queue(es[1..])))
  {
    hide Leads, With, I.Accepts, I.Begin, Apply;
    RunLeads(w, procs, id, p, I.Writing(es), [], false);
  }

  // ---- The reads of each request, back to back ------------------------------------------------

  /** Read one after another, what a request reads queues exactly the effects of the atomic request. */
  lemma LoginReads(w: World, procs: map<nat, I.Proc>, id: nat, e: Event, before: Time, p: I.Proc)
    requires Inputs(w, before, e) && e.req.Login? && p.req == e.req && p.clock == e.clock
    ensures Leads(With(w, procs, id, p, I.Start), With(w, procs, id, p, I.Queue(Answer(w, e).effects)))
  {
    hide Leads, With, LoginPlan, IsActiveList, Ordered;
    RunLeads(w, procs, id, p, I.Start, [], false);
    var phase := I.Begin(w, e.req, e.clock, false);
    if phase.LoginActive? {
      RunLeads(w, procs, id, p, phase, e.seen.active, false);
      LeadsTransitive(With(w, procs, id, p, I.Start), With(w, procs, id, p, phase),
                      With(w, procs, id, p, I.Queue(Answer(w, e).effects)));
    }
  }

  lemma RefreshReads(w: World, procs: map<nat, I.Proc>, id: nat, e: Event, before: Time, p: I.Proc)
    requires Inputs(w, before, e) && e.req.RefreshToken? && p.req == e.req && p.clock == e.clock
    ensures Leads(With(w, procs, id, p, I.Start), With(w, procs, id, p, I.Queue(Answer(w, e).effects)))
  {
    hide Leads, With, RotationPlan, LogoutAllPlan, RevokeAll, ReadGrace, RotatedPair, IsActiveList, Ordered, InGrace;
    RunLeads(w, procs, id, p, I.Start, [], false);
    var start := With(w, procs, id, p, I.Start);
    var phase := I.Begin(w, e.req, e.clock, false);
    var end := With(w, procs, id, p, I.Queue(Answer(w, e).effects));
    if phase.RefreshUser? {
      RunLeads(w, procs, id, p, phase, [], false);
      LeadsTransitive(start, With(w, procs, id, p, phase), end);
    } else if phase.RevokeActive? {
      var rows := I.RevokeRows(phase.u, e.seen.active);
      RunLeads(w, procs, id, p, phase, e.seen.active, false);
      RunLeads(w, procs, id, p, rows, [], false);
      LeadsTransitive(start, With(w, procs, id, p, phase), With(w, procs, id, p, rows));
      LeadsTransitive(start, With(w, procs, id, p, rows), end);
    }
  }

  lemma LogoutReads(w: World, procs: map<nat, I.Proc>, id: nat, e: Event, before: Time, p: I.Proc)
    requires Inputs(w, before, e) && (e.req.Logout? || e.req.LogoutAll?) && p.req == e.req && p.clock == e.clock
    ensures Leads(With(w, procs, id, p, I.Start), With(w, procs, id, p, I.Queue(Answer(w, e).effects)))
  {
    hide Leads, With, LogoutAllPlan, LogoutPlan, RevokeAll, IsActiveList, Ordered;
    RunLeads(w, procs, id, p, I.Start, [], false);
    if e.req.LogoutAll? {
      var start, end := With(w, procs, id, p, I.Start), With(w, procs, id, p, I.Queue(Answer(w, e).effects));
      var phase, rows := I.RevokeActive(e.req.id), I.RevokeRows(e.req.id, e.seen.active);
      RunLeads(w, procs, id, p, phase, e.seen.active, false);
      RunLeads(w, procs, id, p, rows, [], false);
      LeadsTransitive(start, With(w, procs, id, p, phase), With(w, procs, id, p, rows));
      LeadsTransitive(start, With(w, procs, id, p, rows), end);
    }
  }

  /** A commit the database refuses ends the request. */
  lemma RefusedLeads(w: World, procs: map<nat, I.Proc>, id: nat, p: I.Proc, es: seq<Effect>)
    requires es != [] && es[0].Commit? && !I.Accepts(w.tables, es[0].delta)
    ensures Leads(With(w, procs, id, p, I.Queue(es)), With(w, procs, id, p, I.Over))
  {
    hide Leads, With, I.Accepts, I.Begin, Apply;
    RunLeads(w, procs, id, p, I.Writing(es), [], false);
  }

  /** A name that another row holds, deleted or not, is refused by the unique indexes. */
  lemma TakenRefused(t: Tables, u: UserId, write: UserWrite)
    requires write.Create? || (write.SetProfile? && u in t.users)
    requires
      var row := if write.Create? then write.user else Written(t.users[u], write);
      !NamesFree(t, row.email, row.username, u)
    ensures !I.Accepts(t, Delta(Change(u, write), map[], map[]))
  {
    var t' := ApplyDelta(t, Delta(Change(u, write), map[], map[]));
    var row := if write.Create? then write.user else Written(t.users[u], write);
    var v :| v in t.users && v != u && (t.users[v].email == row.email || t.users[v].username == row.username);
    assert t'.users[u] == row && t'.users[v] == t.users[v];
  }

  /** Queued, a write that may be refused leads where the atomic request does. */
  lemma FlushLeads(w: World, procs: map<nat, I.Proc>, id: nat, p: I.Proc, u: UserId, write: UserWrite, es: seq<Effect>)
    requires es != [] && es[0] == CommitWrite(u, write) && (write.Create? || (write.SetProfile? && u in w.tables.users))
    ensures
      var row := if write.Create? then write.user else Written(w.tables.users[u], write);
      !NamesFree(w.tables, row.email, row.username, u) ==>
        Leads(With(w, procs, id, p, I.Queue(es)), With(w, procs, id, p, I.Over))
  {
    hide Leads, With, I.Accepts, NamesFree, Written;
    var row := if write.Create? then write.user else Written(w.tables.users[u], write);
    if !NamesFree(w.tables, row.email, row.username, u) {
      TakenRefused(w.tables, u, write);
      RefusedLeads(w, procs, id, p, es);
    }
  }

  lemma CreateReads(w: World, procs: map<nat, I.Proc>, id: nat, e: Event, p: I.Proc)
    requires e.req.CreateUser? && p.req == e.req && p.clock == e.clock
    ensures Leads(With(w, procs, id, p, I.Start), With(w, procs, id, p, I.Queue(Answer(w, e).effects)))
  {
    hide Leads, With, NamesFree, NameConflict;
    var write := Create(NewUser(e.req.email, e.req.username, e.req.name, e.req.password));
    var es := [CommitWrite(e.req.id, write)];
    RunLeads(w, procs, id, p, I.Start, [], false);
    if NameConflict(w.tables, e.req.email, e.req.username).None? && !NamesFree(w.tables, e.req.email, e.req.username, e.req.id) {
      FlushLeads(w, procs, id, p, e.req.id, write, es);
      LeadsTransitive(With(w, procs, id, p, I.Start), With(w, procs, id, p, I.Queue(es)), With(w, procs, id, p, I.Over));
    }
  }

  /** After the first read of an update, each name given is looked up in turn. */
  lemma UpdateLookups(w: World, procs: map<nat, I.Proc>, id: nat, p: I.Proc)
    requires p.req.UpdateUser? && Visible(w.tables, p.req.id)
    ensures
      var q, t := p.req, w.tables;
      var end := if q.newEmail.Some? && EmailTakenFrom(t, q.newEmail.value, q.id) then I.Over
                 else if q.newUsername.Some? && UsernameTakenFrom(t, q.newUsername.value, q.id) then I.Over
                 else if q.newEmail.None? && q.newUsername.None? then I.Over
                 else I.Queue(ProfilePlan(q.id, SetProfile(q.newEmail, q.newUsername)));
      Leads(With(w, procs, id, p, I.Start), With(w, procs, id, p, end))
  {
    hide Leads, With, EmailTakenFrom, UsernameTakenFrom, ProfilePlan;
    var q, t := p.req, w.tables;
    var start, email, username := With(w, procs, id, p, I.Start), With(w, procs, id, p, I.UpdateEmail), With(w, procs, id, p, I.UpdateUsername);
    RunLeads(w, procs, id, p, I.Start, [], false);
    if q.newEmail.Some? {
      RunLeads(w, procs, id, p, I.UpdateEmail, [], false);
      var next := I.Advance(w, p.(phase := I.UpdateEmail), [], false).1;
      LeadsTransitive(start, email, With(w, procs, id, p, next));
    }
    if q.newUsername.Some? && (q.newEmail.None? || !EmailTakenFrom(t, q.newEmail.value, q.id)) {
      RunLeads(w, procs, id, p, I.UpdateUsername, [], false);
      var next := I.Advance(w, p.(phase := I.UpdateUsername), [], false).1;
      LeadsTransitive(start, username, With(w, procs, id, p, next));
    }
  }

  lemma UpdateReads(w: World, procs: map<nat, I.Proc>, id: nat, e: Event, p: I.Proc)
    requires e.req.UpdateUser? && p.req == e.req && p.clock == e.clock
    ensures Leads(With(w, procs, id, p, I.Start), With(w, procs, id, p, I.Queue(Answer(w, e).effects)))
  {
    hide Leads, With, NamesFree, EmailTakenFrom, UsernameTakenFrom;
    var q, t := e.req, w.tables;
    RunLeads(w, procs, id, p, I.Start, [], false);
    if Visible(t, q.id) {
      UpdateLookups(w, procs, id, p);
      var write := SetProfile(q.newEmail, q.newUsername);
      var es := ProfilePlan(q.id, write);
      FlushLeads(w, procs, id, p, q.id, write, es);
      if !NamesFree(t, q.newEmail.GetOr(t.users[q.id].email), q.newUsername.GetOr(t.users[q.id].username), q.id)
         && Leads(With(w, procs, id, p, I.Start), With(w, procs, id, p, I.Queue(es))) {
        LeadsTransitive(With(w, procs, id, p, I.Start), With(w, procs, id, p, I.Queue(es)), With(w, procs, id, p, I.Over));
      }
    }
  }

  lemma UserReads(w: World, procs: map<nat, I.Proc>, id: nat, e: Event, before: Time, p: I.Proc)
    requires Inputs(w, before, e) && p.req == e.req && p.clock == e.clock
    requires e.req.SetUserPassword? || e.req.ChangeStatus? || e.req.DeleteUser?
    ensures Leads(With(w, procs, id, p, I.Start), With(w, procs, id, p, I.Queue(Answer(w, e).effects)))
  {
    hide Leads, With, LockoutPlan, ProfilePlan, RevokeAll, IsActiveList, Ordered;
    RunLeads(w, procs, id, p, I.Start, [], false);
    var start, end := With(w, procs, id, p, I.Start), With(w, procs, id, p, I.Queue(Answer(w, e).effects));
    var phase := I.Begin(w, e.req, e.clock, false);
    if phase.LockoutActive? {
      var rows := I.LockoutRows(phase.write, e.seen.active);
      RunLeads(w, procs, id, p, phase, e.seen.active, false);
      RunLeads(w, procs, id, p, rows, [], false);
      LeadsTransitive(start, With(w, procs, id, p, phase), With(w, procs, id, p, rows));
      LeadsTransitive(start, With(w, procs, id, p, rows), end);
    } else {
      PlanNotEmpty(e.req.id);
    }
  }

  lemma PlanNotEmpty(u: UserId)
    ensures forall write :: ProfilePlan(u, write) != []
  {
  }

  lemma ReadsLead(w: World, procs: map<nat, I.Proc>, id: nat, e: Event, before: Time, p: I.Proc)
    requires Inputs(w, before, e) && !e.req.Gate? && p.req == e.req && p.clock == e.clock
    ensures Leads(With(w, procs, id, p, I.Start), With(w, procs, id, p, I.Queue(Answer(w, e).effects)))
  {
    hide *;
    match e.req {
      case Login(_, _, _, _, _) => LoginReads(w, procs, id, e, before, p);
      case RefreshToken(_, _, _) => RefreshReads(w, procs, id, e, before, p);
      case Logout(_) => LogoutReads(w, procs, id, e, before, p);
      case LogoutAll(_) => LogoutReads(w, procs, id, e, before, p);
      case CreateUser(_, _, _, _, _) => CreateReads(w, procs, id, e, p);
      case UpdateUser(_, _, _) => UpdateReads(w, procs, id, e, p);
      case _ => UserReads(w, procs, id, e, before, p);
    }
  }

  // ---- Every atomic step is a schedule -----------------------------------------------------------

  /** The one commit of an atomic request is one the database accepts. */
  lemma CommitAccepted(w: World, before: Time, e: Event)
    requires Inv(w, before) && Inputs(w, before, e)
    ensures Accepted(w, Answer(w, e).effects, |Answer(w, e).effects|)
  {
    hide *;
    EventPublishes(w, e, before);
    var es := Answer(w, e).effects;
    if d, i :| Publishes(w, before, e, d, i) {
      PublishesParts(w, before, e, d, i);
      TablesAt(w, es, d, i, i);
      GoodAccepted(w.tables, d, before, e.clock.end);
      OnlyCommit(es, d, i);
      AcceptedIs(w, es, d, i);
    } else {
      NoneAccepted(w, es);
    }
  }

  lemma NoneAccepted(w: World, es: seq<Effect>)
    requires NoCommit(es)
    ensures Accepted(w, es, |es|)
  {
  }

  lemma OnlyCommit(es: seq<Effect>, d: Delta, i: nat)
    requires CommitAt(es, d, i)
    ensures i < |es| && es[i] == Commit(d) && forall j | 0 <= j < |es| && es[j].Commit? :: j == i
  {
    assert forall j | 0 <= j < i :: es[j] == es[..i][j];
    assert forall j | i < j < |es| :: es[j] == es[i + 1..][j - i - 1];
  }

  lemma AcceptedIs(w: World, es: seq<Effect>, d: Delta, i: nat)
    requires i < |es| && es[i] == Commit(d) && forall j | 0 <= j < |es| && es[j].Commit? :: j == i
    requires I.Accepts(Play(w, es[..i]).tables, d)
    ensures Accepted(w, es, |es|)
  {
    hide I.Accepts, Play;
  }

  lemma GoodAccepted(t: Tables, d: Delta, before: Time, now: Time)
    requires GoodDelta(t, d, before, now)
    ensures I.Accepts(t, d)
  {
  }

  /** A request other than the gate, stopped after any of its effects. */
  lemma CommandLeads(w: World, procs: map<nat, I.Proc>, id: nat, e: Event, before: Time)
    requires Inv(w, before) && Inputs(w, before, e) && !e.req.Gate? && e.done <= |Answer(w, e).effects| && id !in procs
    ensures
      var p, es := I.Proc(e.req, e.clock, I.Start), Answer(w, e).effects;
      Leads(I.System(w, procs), With(Play(w, es[..e.done]), procs, id, p, I.Queue(es[e.done..])))
  {
    hide *;
    var p, es := I.Proc(e.req, e.clock, I.Start), Answer(w, e).effects;
    var start, queued := With(w, procs, id, p, I.Start), With(w, procs, id, p, I.Queue(es));
    PresentedToken(w, before, e);
    ArriveLeads(w, procs, id, e.req, e.clock);
    ReadsLead(w, procs, id, e, before, p);
    CommitAccepted(w, before, e);
    AcceptedPrefix(w, es, e.done);
    DrainLeads(w, procs, id, p, es, e.done);
    LeadsTransitive(I.System(w, procs), start, queued);
    LeadsTransitive(I.System(w, procs), queued, With(Play(w, es[..e.done]), procs, id, p, I.Queue(es[e.done..])));
  }

  lemma AcceptedPrefix(w: World, es: seq<Effect>, k: nat)
    requires k <= |es| && Accepted(w, es, |es|)
    ensures Accepted(w, es, k)
  {
    hide I.Accepts, Play;
  }

  /** The gate's session check, with the projection cached on the way if it was not a hit. */
  lemma GateSession(w: World, procs: map<nat, I.Proc>, id: nat, e: Event, p: I.Proc, v: SessionValidation)
    requires e.req.Gate? && p.req == e.req && p.clock == e.clock && Submap(e.seen.cache, w.cache)
    requires DecodeToken(e.req.token, e.clock.decode).Some? && e.req.token.claims.kind == Access && e.req.token.claims.sid.Some?
    requires
      var s := e.req.token.claims.sid.value;
      var found := ReadSession(e.seen.cache, s, e.clock.readSession);
      if found.Some? then v == found.value else s in w.tables.sessions && v == Project(s, w.tables.sessions[s])
    ensures
      var s := e.req.token.claims.sid.value;
      var w' := if ReadSession(e.seen.cache, s, e.clock.readSession).Some? then w
                else Apply(w, WarmSession(s, w.tables.sessions[s], e.clock));
      Leads(With(w, procs, id, p, I.Start), With(w', procs, id, p, I.GateCheck(v)))
  {
    hide Leads, With, EntryFor, StatusVerdict, ReadIdentity;
    var s := e.req.token.claims.sid.value;
    if ReadSession(e.seen.cache, s, e.clock.readSession).Some? {
      RunLeads(w, procs, id, p, I.Start, [], true);
    } else {
      var w' := Apply(w, WarmSession(s, w.tables.sessions[s], e.clock));
      var start, row, warm := With(w, procs, id, p, I.Start), With(w, procs, id, p, I.GateRow), With(w, procs, id, p, I.GateWarm(v));
      RunLeads(w, procs, id, p, I.Start, [], false);
      RunLeads(w, procs, id, p, I.GateRow, [], false);
      RunLeads(w, procs, id, p, I.GateWarm(v), [], false);
      LeadsTransitive(start, row, warm);
      LeadsTransitive(start, warm, With(w', procs, id, p, I.GateCheck(v)));
    }
  }

  /** Where the gate ends up. */
  ghost predicate Decides(phase: I.Phase, result: Result) {
    if result.Admitted? then phase.GateAdmits? && phase.who == result.identity else phase == I.Over
  }

  ghost function Decided(v: SessionValidation, result: Result): I.Phase {
    if result.Admitted? then I.GateAdmits(v, result.identity) else I.Over
  }

  lemma CheckPasses(w: World, procs: map<nat, I.Proc>, id: nat, p: I.Proc, v: SessionValidation)
    requires p.req.Gate? && p.req.token.Signed? && v.IsActive(p.clock.check) && v.userId == p.req.token.claims.sub
    ensures Leads(With(w, procs, id, p, I.GateCheck(v)), With(w, procs, id, p, I.GateIdentity(v)))
  {
    hide Leads, With;
    RunLeads(w, procs, id, p, I.GateCheck(v), [], false);
  }

  lemma IdentityHit(w: World, procs: map<nat, I.Proc>, id: nat, p: I.Proc, v: SessionValidation, who: Identity)
    requires ReadIdentity(w.cache, v.userId, p.clock.readNext) == Some(who)
    ensures Leads(With(w, procs, id, p, I.GateIdentity(v)), With(w, procs, id, p, Decided(v, StatusVerdict(who))))
  {
    hide Leads, With, ReadIdentity;
    RunLeads(w, procs, id, p, I.GateIdentity(v), [], true);
  }

  /** A miss, or an entry that vanished: the profile is read, and cached if it is visible. */
  lemma IdentityMiss(w: World, procs: map<nat, I.Proc>, id: nat, p: I.Proc, v: SessionValidation)
    ensures
      var from := With(w, procs, id, p, I.GateIdentity(v));
      if Visible(w.tables, v.userId) then
        var row := w.tables.users[v.userId];
        Leads(from, With(Apply(w, WarmIdentity(v.userId, row, p.clock)), procs, id, p,
                         Decided(v, StatusVerdict(IdentityOf(v.userId, row)))))
      else Leads(from, With(w, procs, id, p, I.Over))
  {
    hide Leads, With, EntryFor, ReadIdentity;
    var from, profile := With(w, procs, id, p, I.GateIdentity(v)), With(w, procs, id, p, I.GateProfile(v));
    RunLeads(w, procs, id, p, I.GateIdentity(v), [], false);
    RunLeads(w, procs, id, p, I.GateProfile(v), [], false);
    if Visible(w.tables, v.userId) {
      var row := w.tables.users[v.userId];
      var warm := With(w, procs, id, p, I.GateWarmUser(v, IdentityOf(v.userId, row)));
      RunLeads(w, procs, id, p, I.GateWarmUser(v, IdentityOf(v.userId, row)), [], false);
      LeadsTransitive(from, profile, warm);
      LeadsTransitive(from, warm, With(Apply(w, WarmIdentity(v.userId, row, p.clock)), procs, id, p,
                                       Decided(v, StatusVerdict(IdentityOf(v.userId, row)))));
    } else {
      LeadsTransitive(from, profile, With(w, procs, id, p, I.Over));
    }
  }

  lemma PlayOne(w: World, e: Effect)
    ensures Play(w, [e]) == Apply(w, e)
  {
    PlaySnoc(w, [], e);
    assert [] + [e] == [e];
  }

  /** The rest of the gate, once the session is in order. */
  lemma GateRest(w: World, procs: map<nat, I.Proc>, id: nat, seen: Cache, p: I.Proc, v: SessionValidation)
    requires p.req.Gate? && p.req.token.Signed? && v.IsActive(p.clock.check) && v.userId == p.req.token.claims.sub
    requires ReadIdentity(seen, v.userId, p.clock.readNext).Some? ==>
               ReadIdentity(w.cache, v.userId, p.clock.readNext) == ReadIdentity(seen, v.userId, p.clock.readNext)
    ensures
      var rest := ServeIdentity(w.tables, seen, v.userId, p.clock);
      Leads(With(w, procs, id, p, I.GateCheck(v)), With(Play(w, rest.effects), procs, id, p, Decided(v, rest.result)))
  {
    hide Leads, With, WarmIdentity, ReadIdentity, StatusVerdict, Apply, Play, SessionValidation.IsActive;
    var rest := ServeIdentity(w.tables, seen, v.userId, p.clock);
    var found := ReadIdentity(seen, v.userId, p.clock.readNext);
    CheckPasses(w, procs, id, p, v);
    PlayNothing(w);
    if found.Some? {
      IdentityHit(w, procs, id, p, v, found.value);
    } else {
      IdentityMiss(w, procs, id, p, v);
      if Visible(w.tables, v.userId) { PlayOne(w, WarmIdentity(v.userId, w.tables.users[v.userId], p.clock)); }
    }
    LeadsTransitive(With(w, procs, id, p, I.GateCheck(v)), With(w, procs, id, p, I.GateIdentity(v)),
                    With(Play(w, rest.effects), procs, id, p, Decided(v, rest.result)));
  }

  /** The gate past its token: the session it found, what it cached, and what is left to do. */
  ghost predicate GateOpens(w: World, e: Event, s: SessionId) {
    && e.req.Gate? && DecodeToken(e.req.token, e.clock.decode).Some? && e.req.token.claims.kind == Access
    && e.req.token.claims.sid == Some(s)
    && (ReadSession(e.seen.cache, s, e.clock.readSession).Some? || s in w.tables.sessions)
  }

  ghost function Found(w: World, e: Event, s: SessionId): SessionValidation
    requires GateOpens(w, e, s)
  {
    var found := ReadSession(e.seen.cache, s, e.clock.readSession);
    if found.Some? then found.value else Project(s, w.tables.sessions[s])
  }

  ghost function Warmed(w: World, e: Event, s: SessionId): seq<Effect>
    requires GateOpens(w, e, s)
  {
    if ReadSession(e.seen.cache, s, e.clock.readSession).Some? then [] else [WarmSession(s, w.tables.sessions[s], e.clock)]
  }

  lemma GateServes(w: World, e: Event)
    requires e.req.Gate?
    ensures forall s | GateOpens(w, e, s) ::
      var v := Found(w, e, s);
      if v.IsActive(e.clock.check) && v.userId == e.req.token.claims.sub then
        var rest := ServeIdentity(w.tables, e.seen.cache, v.userId, e.clock);
        Answer(w, e) == Served(Warmed(w, e, s) + rest.effects, rest.result)
      else Answer(w, e).effects == Warmed(w, e, s) && Answer(w, e).result.Rejected?
    ensures (forall s :: !GateOpens(w, e, s)) ==> Answer(w, e).effects == [] && Answer(w, e).result.Rejected?
  {
    hide ReadSession, ServeIdentity, EntryFor;
    var claims := DecodeToken(e.req.token, e.clock.decode);
    if claims.Some? && claims.value.kind == Access && claims.value.sid.Some? {
      var s := claims.value.sid.value;
      assert GateOpens(w, e, s) <==> ReadSession(e.seen.cache, s, e.clock.readSession).Some? || s in w.tables.sessions;
    }
  }

  lemma GateShut(w: World, procs: map<nat, I.Proc>, id: nat, e: Event, p: I.Proc)
    requires e.req.Gate? && p.req == e.req && p.clock == e.clock && forall s :: !GateOpens(w, e, s)
    requires Submap(e.seen.cache, w.cache)
    ensures Leads(With(w, procs, id, p, I.Start), With(w, procs, id, p, I.Over))
  {
    hide Leads, With, EntryFor, StatusVerdict, ReadIdentity, ReadSession;
    RunLeads(w, procs, id, p, I.Start, [], false);
    var d := DecodeToken(e.req.token, e.clock.decode);
    if d.Some? && d.value.kind == Access && d.value.sid.Some? {
      assert !GateOpens(w, e, d.value.sid.value);
      RunLeads(w, procs, id, p, I.GateRow, [], false);
      LeadsTransitive(With(w, procs, id, p, I.Start), With(w, procs, id, p, I.GateRow), With(w, procs, id, p, I.Over));
    }
  }

  lemma GateFound(w: World, procs: map<nat, I.Proc>, id: nat, e: Event, p: I.Proc, s: SessionId)
    requires GateOpens(w, e, s) && p.req == e.req && p.clock == e.clock && Submap(e.seen.cache, w.cache)
    ensures Leads(With(w, procs, id, p, I.Start), With(Play(w, Warmed(w, e, s)), procs, id, p, I.GateCheck(Found(w, e, s))))
    ensures forall u | ReadIdentity(e.seen.cache, u, e.clock.readNext).Some? ::
              ReadIdentity(Play(w, Warmed(w, e, s)).cache, u, e.clock.readNext) == ReadIdentity(e.seen.cache, u, e.clock.readNext)
    ensures Play(w, Warmed(w, e, s)).tables == w.tables
  {
    hide Leads, With, EntryFor, ReadSession, Play;
    PlayNothing(w);
    if ReadSession(e.seen.cache, s, e.clock.readSession).None? {
      PlayOne(w, WarmSession(s, w.tables.sessions[s], e.clock));
    }
    GateSession(w, procs, id, e, p, Found(w, e, s));
  }

  lemma CheckFails(w: World, procs: map<nat, I.Proc>, id: nat, p: I.Proc, v: SessionValidation)
    requires p.req.Gate? && p.req.token.Signed? && !(v.IsActive(p.clock.check) && v.userId == p.req.token.claims.sub)
    ensures Leads(With(w, procs, id, p, I.GateCheck(v)), With(w, procs, id, p, I.Over))
  {
    hide Leads, With;
    RunLeads(w, procs, id, p, I.GateCheck(v), [], false);
  }

  /** Run alone to its end, the interleaved gate decides what the atomic gate decides and caches what it caches. */
  lemma GateAlone(w: World, procs: map<nat, I.Proc>, id: nat, e: Event, p: I.Proc)
    requires e.req.Gate? && p.req == e.req && p.clock == e.clock && Submap(e.seen.cache, w.cache)
    ensures exists phase :: Decides(phase, Answer(w, e).result)
              && Leads(With(w, procs, id, p, I.Start), With(Play(w, Answer(w, e).effects), procs, id, p, phase))
  {
    hide Leads, With, Answer, GateOpens, Found, Warmed, ReadIdentity, Play, Apply, ServeIdentity, SessionValidation.IsActive, DecodeToken;
    GateServes(w, e);
    var start := With(w, procs, id, p, I.Start);
    if s :| GateOpens(w, e, s) {
      OpenSigned(w, e, s);
      var v, warm := Found(w, e, s), Warmed(w, e, s);
      var w' := Play(w, warm);
      GateFound(w, procs, id, e, p, s);
      if v.IsActive(e.clock.check) && v.userId == e.req.token.claims.sub {
        GateRest(w', procs, id, e.seen.cache, p, v);
        var rest := ServeIdentity(w.tables, e.seen.cache, v.userId, e.clock);
        PlayConcat(w, warm, rest.effects);
        VerdictDecided(w.tables, e.seen.cache, v, e.clock);
        LeadsTransitive(start, With(w', procs, id, p, I.GateCheck(v)),
                        With(Play(w', rest.effects), procs, id, p, Decided(v, rest.result)));
      } else {
        CheckFails(w', procs, id, p, v);
        LeadsTransitive(start, With(w', procs, id, p, I.GateCheck(v)), With(w', procs, id, p, I.Over));
        assert Decides(I.Over, Answer(w, e).result);
      }
    } else {
      GateShut(w, procs, id, e, p);
      PlayNothing(w);
      assert Decides(I.Over, Answer(w, e).result);
    }
  }

  lemma OpenSigned(w: World, e: Event, s: SessionId)
    requires GateOpens(w, e, s)
    ensures e.req.Gate? && e.req.token.Signed?
  {
  }

  lemma VerdictDecided(t: Tables, seen: Cache, v: SessionValidation, c: Clock)
    ensures var rest := ServeIdentity(t, seen, v.userId, c); Decides(Decided(v, rest.result), rest.result)
  {
    hide ReadIdentity;
  }

  /** The gate stopped after its first effect but before its second has just cached the session. */
  lemma GateHalfway(w: World, procs: map<nat, I.Proc>, id: nat, e: Event, p: I.Proc)
    requires e.req.Gate? && p.req == e.req && p.clock == e.clock && Submap(e.seen.cache, w.cache)
    requires 0 < e.done < |Answer(w, e).effects|
    ensures exists phase :: Leads(With(w, procs, id, p, I.Start), With(Play(w, Answer(w, e).effects[..e.done]), procs, id, p, phase))
  {
    hide Leads, With, Answer, GateOpens, Found, ReadIdentity, ReadSession, Play, Apply, WarmSession, WarmIdentity, SessionValidation.IsActive;
    GateServes(w, e);
    var s :| GateOpens(w, e, s);
    GateFound(w, procs, id, e, p, s);
    assert Answer(w, e).effects[..e.done] == Warmed(w, e, s);
  }

  /** Every atomic request, wherever it stops and whatever is lost, is something interleaved requests can do. */
  lemma StepIsSchedule(w: World, before: Time, e: Event, w': World, procs: map<nat, I.Proc>, id: nat)
    requires Inv(w, before) && Step(w, before, e, w') && id !in procs
    ensures Leads(I.System(w, procs), I.System(w', procs))
  {
    hide *;
    StepParts(w, before, e, w');
    var p, es := I.Proc(e.req, e.clock, I.Start), Answer(w, e).effects;
    var start, end := With(w, procs, id, p, I.Start), Play(w, es[..e.done]);
    PresentedToken(w, before, e);
    ArriveLeads(w, procs, id, e.req, e.clock);
    if !e.req.Gate? {
      CommandLeads(w, procs, id, e, before);
      LeaveLeads(end, procs, id, p, I.Queue(es[e.done..]), w');
      LeadsTransitive(I.System(w, procs), With(end, procs, id, p, I.Queue(es[e.done..])), I.System(w', procs));
    } else {
      if e.done == |es| {
        GateAlone(w, procs, id, e, p);
        assert es[..e.done] == es;
      } else if e.done == 0 {
        assert es[..0] == [];
        PlayNothing(w);
        LeadsSelf(start);
      } else {
        GateHalfway(w, procs, id, e, p);
      }
      var phase :| Leads(start, With(end, procs, id, p, phase));
      LeaveLeads(end, procs, id, p, phase, w');
      LeadsTransitive(I.System(w, procs), start, With(end, procs, id, p, phase));
      LeadsTransitive(I.System(w, procs), With(end, procs, id, p, phase), I.System(w', procs));
    }
  }

  /** Every run of atomic requests is a schedule of interleaved ones. */
  lemma {:induction false} RunIsSchedule(ws: seq<World>, es: seq<Event>, i: nat)
    requires Run(ws, es) && i <= |es|
    ensures Leads(I.System(ws[0], map[]), I.System(ws[i], map[]))
  {
    hide Leads, Inv, Step, Initial;
    if i == 0 {
      LeadsSelf(I.System(ws[0], map[]));
    } else {
      RunIsSchedule(ws, es, i - 1);
      Reachable(ws, es, i - 1);
      StepIsSchedule(ws[i - 1], ClockBefore(es, i - 1), es[i - 1], ws[i], map[], 0);
      LeadsTransitive(I.System(ws[0], map[]), I.System(ws[i - 1], map[]), I.System(ws[i], map[]));
    }
  }

  // ---- What interleaving breaks --------------------------------------------------------------------

  /** A session that two others name as their predecessor, both of them unrevoked. */
  ghost predicate Forked(t: Tables, s: SessionId, a: SessionId, b: SessionId) {
    && a in t.sessions && b in t.sessions && a != b
    && t.sessions[a].previous == Some(s) && t.sessions[b].previous == Some(s)
    && t.sessions[a].revokedAt.None? && t.sessions[b].revokedAt.None?
  }

  /** A refresh that would rotate `s` if it ran alone. */
  ghost predicate Rotates(w: World, before: Time, e: Event, s: SessionId) {
    && Inputs(w, before, e) && e.req.RefreshToken? && Answer(w, e).result.Rotated? && e.req.token.Signed?
    && s in w.tables.sessions
    && Answer(w, e).effects == RotationPlan(s, w.tables.sessions[s], w.tables.sessions[s].userId, e.req.ip, e.req.newId, e.clock)
  }

  /**
   * No row is locked: whenever two refreshes would each rotate a session, they
   * can both rotate it, and the chain forks. Linear chains hold only while
   * requests do not overlap.
   */
  lemma RotationsCanFork(w: World, before: Time, a: Event, b: Event, s: SessionId)
    requires Inv(w, before) && Rotates(w, before, a, s) && Rotates(w, before, b, s) && a.req.newId != b.req.newId
    ensures exists w' :: Leads(I.System(w, map[]), I.System(w', map[])) && Forked(w'.tables, s, a.req.newId, b.req.newId)
  {
    hide *;
    RotatesParts(w, before, a, s);
    RotatesParts(w, before, b, s);
    var first, second := Answer(w, a).effects, Answer(w, b).effects;
    var pa, pb := I.Proc(a.req, a.clock, I.Start), I.Proc(b.req, b.clock, I.Start);
    var empty: map<nat, I.Proc> := map[];
    var one := empty[1 := pa.(phase := I.Queue(first))];
    // Both refreshes read the session while it is active.
    PresentedToken(w, before, a);
    ArriveLeads(w, empty, 1, a.req, a.clock);
    ReadsLead(w, empty, 1, a, before, pa);
    WithIs(w, empty, 1, pa, I.Queue(first));
    LeadsTransitive(I.System(w, empty), With(w, empty, 1, pa, I.Start), I.System(w, one));
    PresentedToken(w, before, b);
    ArriveLeads(w, one, 2, b.req, b.clock);
    ReadsLead(w, one, 2, b, before, pb);
    LeadsTransitive(I.System(w, one), With(w, one, 2, pb, I.Start), With(w, one, 2, pb, I.Queue(second)));
    LeadsTransitive(I.System(w, empty), I.System(w, one), With(w, one, 2, pb, I.Queue(second)));
    // The second one commits, then the first.
    CommitAccepted(w, before, b);
    DrainLeads(w, one, 2, pb, second, |second|);
    var mid := Play(w, second);
    assert second[..|second|] == second;
    BelowSelf(mid);
    LeaveLeads(mid, one, 2, pb, I.Queue(second[|second|..]), mid);
    WithIs(mid, empty, 1, pa, I.Queue(first));
    LeadsTransitive(I.System(w, empty), With(w, one, 2, pb, I.Queue(second)), With(mid, one, 2, pb, I.Queue(second[|second|..])));
    LeadsTransitive(I.System(w, empty), With(mid, one, 2, pb, I.Queue(second[|second|..])), I.System(mid, one));
    TwiceAccepted(w, before, a, b, s);
    DrainLeads(mid, empty, 1, pa, first, |first|);
    var end := Play(mid, first);
    assert first[..|first|] == first;
    BelowSelf(end);
    LeaveLeads(end, empty, 1, pa, I.Queue(first[|first|..]), end);
    LeadsTransitive(I.System(w, empty), I.System(mid, one), With(end, empty, 1, pa, I.Queue(first[|first|..])));
    LeadsTransitive(I.System(w, empty), With(end, empty, 1, pa, I.Queue(first[|first|..])), I.System(end, empty));
  }

  lemma WithIs(w: World, procs: map<nat, I.Proc>, id: nat, p: I.Proc, phase: I.Phase)
    ensures With(w, procs, id, p, phase) == I.System(w, procs[id := p.(phase := phase)])
  {
  }

  lemma BelowSelf(w: World)
    ensures Below(w, w)
  {
  }

  lemma RotatesParts(w: World, before: Time, e: Event, s: SessionId)
    requires Rotates(w, before, e, s)
    ensures Inputs(w, before, e) && e.req.RefreshToken? && e.req.newId !in w.tables.sessions && s in w.tables.sessions
    ensures Answer(w, e).effects ==
            RotationPlan(s, w.tables.sessions[s], w.tables.sessions[s].userId, e.req.ip, e.req.newId, e.clock)
  {
    hide RotationPlan, Answer, IsActiveList, Ordered;
  }

  /** After another rotation of the same session has been published, this one still goes through. */
  lemma TwiceAccepted(w: World, before: Time, a: Event, b: Event, s: SessionId)
    requires Inv(w, before) && Rotates(w, before, a, s) && Rotates(w, before, b, s) && a.req.newId != b.req.newId
    ensures
      var mid := Play(w, Answer(w, b).effects);
      && Accepted(mid, Answer(w, a).effects, |Answer(w, a).effects|)
      && Forked(Play(mid, Answer(w, a).effects).tables, s, a.req.newId, b.req.newId)
  {
    hide *;
    RotatesParts(w, before, a, s);
    RotatesParts(w, before, b, s);
    var row := w.tables.sessions[s];
    var first, second := Answer(w, a).effects, Answer(w, b).effects;
    var da := RotationDelta(s, row, row.userId, a.req.ip, a.req.newId, a.clock);
    var db := RotationDelta(s, row, row.userId, b.req.ip, b.req.newId, b.clock);
    RotationCommits(s, row, row.userId, a.req.ip, a.req.newId, a.clock);
    RotationCommits(s, row, row.userId, b.req.ip, b.req.newId, b.clock);
    assert first[..|first|] == first && second[..|second|] == second;
    OnlyCommit(first, da, 1);
    OnlyCommit(second, db, 1);
    var mid := Play(w, second);
    TablesAt(w, second, db, 1, |second|);
    TablesAt(mid, first, da, 1, |first|);
    TablesAt(mid, first, da, 1, 1);
    TablesOfInv(w, before);
    ForkTables(w.tables, before, s, a, b);
    AcceptedIs(mid, first, da, 1);
  }

  lemma ForkTables(t: Tables, now: Time, s: SessionId, a: Event, b: Event)
    requires TablesOk(t, now) && s in t.sessions && a.req.RefreshToken? && b.req.RefreshToken?
    requires a.req.newId !in t.sessions && b.req.newId !in t.sessions && a.req.newId != b.req.newId
    ensures
      var row := t.sessions[s];
      var da := RotationDelta(s, row, row.userId, a.req.ip, a.req.newId, a.clock);
      var db := RotationDelta(s, row, row.userId, b.req.ip, b.req.newId, b.clock);
      && I.Accepts(ApplyDelta(t, db), da)
      && Forked(ApplyDelta(ApplyDelta(t, db), da), s, a.req.newId, b.req.newId)
  {
    hide Lockout, Dated, Linked, WithinLimit;
  }
}
