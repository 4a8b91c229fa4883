/** When a plan made on outdated versions acts: exactly when nothing is stored
    any more as it finishes. */
module PlanningTheorems {
  import opened Types
  import opened Commands
  import opened Booking
  import opened BookingRuns
  import BookingTheorems
  import Policies
  import Reorder
  import opened PlanGate
  import opened Planning

  // ---------------------------------------------------------------- invariant

  /** What was shown is still there, as it was or with a higher version. */
  predicate Ages(s: State, shown: map<nat, Request>) {
    forall id :: id in shown ==>
      && id in s.requests && Visible(shown[id])
      && (s.requests[id] == shown[id] || s.requests[id].version > shown[id].version)
  }

  predicate HandlerAges(s: State, h: Handler) {
    match h
    case Looking(shown) => Ages(s, shown)
    case Drafted(d) => Ages(s, d.shown) && d.byModel
    case Holding(d) => Ages(s, d.shown)
    case _ => true
  }

  ghost predicate TurnInv(t: Turn) {
    && StoreInv(t.store)
    && (t.stored.Some? ==> Ages(t.store, t.stored.value.shown) && t.stored.value.byModel)
    && forall h :: 0 <= h < |t.handlers| ==> HandlerAges(t.store, t.handlers[h])
  }

  lemma AgesOn(s: State, e: Booking.Event, shown: map<nat, Request>)
    requires StoreInv(s) && Ages(s, shown)
    ensures Ages(Booking.Step(s, e), shown)
  {
    forall id | id in shown
      ensures id in Booking.Step(s, e).requests
      ensures var q := Booking.Step(s, e).requests[id]; q == shown[id] || q.version > shown[id].version
    {
      BookingTheorems.StepAdvances(s, e, id);
    }
  }

  lemma TurnAges(t: Turn, e: Booking.Event)
    requires TurnInv(t)
    ensures TurnInv(t.(store := Booking.Step(t.store, e)))
  {
    StepKeeps(t.store, e);
    if t.stored.Some? { AgesOn(t.store, e, t.stored.value.shown); }
    forall h | 0 <= h < |t.handlers| ensures HandlerAges(Booking.Step(t.store, e), t.handlers[h]) {
      assert HandlerAges(t.store, t.handlers[h]);
      match t.handlers[h]
      case Looking(shown) => AgesOn(t.store, e, shown);
      case Drafted(d) => AgesOn(t.store, e, d.shown);
      case Holding(d) => AgesOn(t.store, e, d.shown);
      case _ =>
    }
  }

  /** A finish is one step of the booking store, whose version check is the
      stored plan's, or is empty. */
  lemma FinishIsAStep(t: Turn, h: nat, sc: Scene) returns (e: Booking.Event)
    requires h < |t.handlers| && t.handlers[h].Holding? && Acts(t)
    ensures Finish(t, h, sc).store == Booking.Step(t.store, e)
    ensures e.PlanFinished? ==> e.phone == sc.phone && e.expected in {Expected(t), map[]}
    ensures e.PlanFinished? ==>
              forall i :: 0 <= i < |e.cmds| ==>
                e.cmds[i] in if t.stored.Some? then t.stored.value.cmds else t.handlers[h].draft.cmds
    ensures e.PlanFinished? || e.OutsideTown?
  {
    var n;
    var p := PlanToRun(t, t.handlers[h].draft, sc);
    e, n := PlanIsAStep(t.store, p);
    if e.PlanFinished? {
      forall i | 0 <= i < |e.cmds| ensures e.cmds[i] in p.cmds {
        assert e.cmds[i] == Executable(t.store, p)[i];
        ExecutableIsOwn(t.store, p, e.cmds[i]);
      }
    }
  }

  /** Who has which plan: a reader takes the stored plan, unless the rules settle
      the message, a planner its own, and what is stored is kept until a reset. */
  lemma PlansExactly(t: Turn, e: Planning.Event, h: nat)
    requires Enabled(t, e)
    ensures var u := Planning.Step(t, e);
            && (e.Stores? ==>
                  u.stored == if t.stored.None? && !t.processed then Some(t.handlers[e.handler].draft) else t.stored)
            && (e.Resets? && !t.processed ==> u.stored.None?)
            && (!e.Stores? && !(e.Resets? && !t.processed) ==> u.stored == t.stored)
            && (e.Reads? ==>
                  u.handlers == t.handlers + [if t.stored.Some? && !e.byRules then Holding(t.stored.value)
                                              else Looking(Shown(t.store, e.ids))])
            && (!e.Reads? ==> |u.handlers| == |t.handlers|)
            && (e.Plans? && e.byModel ==>
                  u.handlers[e.handler] == Drafted(Draft(e.cmds, t.handlers[e.handler].shown, true)))
            && (e.Plans? && !e.byModel ==>
                  u.handlers[e.handler] == Holding(Draft(e.cmds, t.handlers[e.handler].shown, false)))
            && (e.Stores? ==> u.handlers[e.handler] == Holding(t.handlers[e.handler].draft))
  {}

  /** A reader is shown the requests that are neither closed nor cancelled, as they
      are at that moment. */
  lemma ShownExactly(s: State, ids: set<nat>, id: nat)
    ensures id in Shown(s, ids) <==> id in ids && id in s.requests && s.requests[id].status !in {Closed, Cancelled}
    ensures id in Shown(s, ids) ==> Shown(s, ids)[id] == s.requests[id]
    ensures id in Shown(s, ids) ==>
              id in Versions(Shown(s, ids)) && Versions(Shown(s, ids))[id] == s.requests[id].version
  {}

  lemma FinishKeeps(t: Turn, h: nat, sc: Scene)
    requires TurnInv(t) && h < |t.handlers| && t.handlers[h].Holding?
    ensures TurnInv(Finish(t, h, sc))
  {
    if Acts(t) {
      var e := FinishIsAStep(t, h, sc);
      TurnAges(t, e);
      var u := t.(store := Booking.Step(t.store, e));
      assert forall g :: 0 <= g < |u.handlers| ==> HandlerAges(u.store, u.handlers[g]);
    }
  }

  lemma TurnStep(t: Turn, e: Planning.Event)
    requires TurnInv(t) && Enabled(t, e)
    ensures TurnInv(Planning.Step(t, e))
  {
    match e
    case Finishes(h, sc) => FinishKeeps(t, h, sc);
    case Elsewhere(change) => TurnAges(t, change);
    case _ => LocalStep(t, e);
  }

  /** The steps that leave the booking store alone. */
  lemma LocalStep(t: Turn, e: Planning.Event)
    requires TurnInv(t) && Enabled(t, e) && !e.Finishes? && !e.Elsewhere?
    ensures TurnInv(Planning.Step(t, e))
  {
    match e
    case Plans(h, _, _) => assert HandlerAges(t.store, t.handlers[h]);
    case Stores(h) => assert HandlerAges(t.store, t.handlers[h]);
    case _ =>
  }

  lemma {:induction false} TurnAlong(ts: seq<Turn>, es: seq<Planning.Event>, n: nat)
    requires TurnRun(ts, es) && TurnInv(ts[0]) && n <= |es|
    ensures TurnInv(ts[n])
  {
    if n == 0 {
    } else {
      TurnAlong(ts, es, n - 1);
      TurnStep(ts[n - 1], es[n - 1]);
    }
  }

  // -------------------------------------------------------- acting on the past

  /** Some version the planner saw has passed. */
  predicate HasPassed(s: State, shown: map<nat, Request>) {
    !Fresh(s, Versions(shown))
  }

  /** While none has passed, every request is exactly as the planner saw it. */
  lemma UnpassedIsUnchanged(s: State, shown: map<nat, Request>)
    requires Ages(s, shown)
    ensures !HasPassed(s, shown) <==> forall id :: id in shown ==> id in s.requests && s.requests[id] == shown[id]
  {}

  /** A finish that runs a plan of the model one of whose versions has passed. */
  predicate ActsOnPassed(t: Turn, e: Planning.Event) {
    && e.Finishes? && e.handler < |t.handlers| && t.handlers[e.handler].Holding? && Acts(t)
    && var d := Used(t, t.handlers[e.handler].draft);
       d.byModel && HasPassed(t.store, d.shown)
  }

  /** It does exactly when nothing is stored as it finishes, and a version its own
      planner saw has passed. */
  lemma ActsOnPassedExactly(t: Turn, h: nat, sc: Scene)
    requires h < |t.handlers| && t.handlers[h].Holding?
    ensures ActsOnPassed(t, Finishes(h, sc)) <==>
              && !t.processed && t.stored.None?
              && t.handlers[h].draft.byModel && HasPassed(t.store, t.handlers[h].draft.shown)
  {}

  // ------------------------------------------------------------ acting once

  lemma {:induction false} ProcessedStays(ts: seq<Turn>, es: seq<Planning.Event>, m: nat, n: nat)
    requires TurnRun(ts, es) && m <= n <= |es| && ts[m].processed
    ensures ts[n].processed
  {
    if m == n {
    } else {
      ProcessedStays(ts, es, m, n - 1);
      assert ts[n] == Planning.Step(ts[n - 1], es[n - 1]);
    }
  }

  /** Whatever handlers finish it, a message is acted on at most once, and never
      after it was processed in another way; every other finish leaves the store
      alone. */
  lemma ActsAtMostOnce(ts: seq<Turn>, es: seq<Planning.Event>, m: nat, n: nat)
    requires TurnRun(ts, es) && m < n < |es| && es[n].Finishes?
    requires (es[m].Finishes? && Acts(ts[m])) || es[m].Closes?
    ensures !Acts(ts[n]) && ts[n + 1].store == ts[n].store
  {
    assert ts[m + 1] == Planning.Step(ts[m], es[m]);
    ProcessedStays(ts, es, m + 1, n);
    assert ts[n + 1] == Planning.Step(ts[n], es[n]);
  }

  // ------------------------------------------------------------ careless resets

  /** Handler g would finish a plan of the model that was shown something. */
  predicate Exposed(t: Turn, g: nat)
    requires g < |t.handlers|
  {
    t.handlers[g].Holding? && t.handlers[g].draft.byModel && t.handlers[g].draft.shown != map[]
  }

  /** The reset falls while another handler holds an unfinished plan of the model. */
  predicate Careless(t: Turn, e: Planning.Event) {
    && e.Resets? && !t.processed
    && exists g :: 0 <= g < |t.handlers| && g != e.handler && Exposed(t, g)
  }

  /** Whoever holds such a plan will find one stored. */
  predicate Guarded(t: Turn) {
    !t.processed ==> forall g :: 0 <= g < |t.handlers| && Exposed(t, g) ==> t.stored.Some?
  }

  lemma StepGuarded(t: Turn, e: Planning.Event)
    requires TurnInv(t) && Enabled(t, e) && Guarded(t) && !Careless(t, e)
    ensures Guarded(Planning.Step(t, e))
  {
    var u := Planning.Step(t, e);
    forall g | 0 <= g < |u.handlers| && Exposed(u, g) && !u.processed ensures u.stored.Some? {
      if g < |t.handlers| && u.handlers[g] == t.handlers[g] { assert Exposed(t, g); }
    }
  }

  ghost predicate CarefulRun(ts: seq<Turn>, es: seq<Planning.Event>) {
    TurnRun(ts, es) && forall i :: 0 <= i < |es| ==> !Careless(ts[i], es[i])
  }

  lemma {:induction false} GuardedAlong(ts: seq<Turn>, es: seq<Planning.Event>, n: nat)
    requires CarefulRun(ts, es) && TurnInv(ts[0]) && Guarded(ts[0]) && n <= |es|
    ensures TurnInv(ts[n]) && Guarded(ts[n])
  {
    if n == 0 {
    } else {
      GuardedAlong(ts, es, n - 1);
      TurnStep(ts[n - 1], es[n - 1]);
      StepGuarded(ts[n - 1], es[n - 1]);
    }
  }

  /** Over every run in which no reset is careless: a plan of the model acts only
      if every request its planner was shown is exactly as it was shown. */
  lemma CarefulPlansActOnWhatTheySaw(s: State, ts: seq<Turn>, es: seq<Planning.Event>, n: nat, id: nat)
    requires StoreInv(s) && CarefulRun(ts, es) && ts[0] == NewTurn(s) && n < |es| && es[n].Finishes? && Acts(ts[n])
    ensures var d := Used(ts[n], ts[n].handlers[es[n].handler].draft);
            d.byModel && id in d.shown ==> id in ts[n].store.requests && ts[n].store.requests[id] == d.shown[id]
    ensures !ActsOnPassed(ts[n], es[n])
  {
    GuardedAlong(ts, es, n);
    var h := es[n].handler;
    ActsOnPassedExactly(ts[n], h, es[n].scene);
    assert HandlerAges(ts[n].store, ts[n].handlers[h]);
    if ts[n].handlers[h].draft.byModel && ts[n].stored.None? { assert !Exposed(ts[n], h); }
    UnpassedIsUnchanged(ts[n].store, Used(ts[n], ts[n].handlers[h].draft).shown);
  }

  // ------------------------------------------------------ the condition is exact

  /** However it goes on from t, while no reset is careless, no plan of the model
      acts on versions that have passed. */
  ghost predicate NeverActsOnPassed(t: Turn) {
    forall ts: seq<Turn>, es: seq<Planning.Event> ::
      CarefulRun(ts, es) && ts[0] == t && es != [] ==> !ActsOnPassed(ts[|es| - 1], es[|es| - 1])
  }

  /** Any visible request can be given a higher version by another transaction. */
  lemma CanPass(s: State, shown: map<nat, Request>, id: nat)
    requires Ages(s, shown) && id in shown
    ensures HasPassed(s, shown) || HasPassed(Booking.Step(s, TurnFailed(id)), shown)
  {
    if !HasPassed(s, shown) {
      UnpassedIsUnchanged(s, shown);
      assert Booking.Step(s, TurnFailed(id)).requests[id].version == shown[id].version + 1;
      assert id in Versions(shown);
    }
  }

  lemma OneStep(t: Turn, e: Planning.Event) returns (ts: seq<Turn>, es: seq<Planning.Event>)
    requires Enabled(t, e) && !Careless(t, e)
    ensures CarefulRun(ts, es) && ts[0] == t && es == [e]
  {
    ts, es := [t, Planning.Step(t, e)], [e];
  }

  lemma Before(t: Turn, change: Planning.Event, ts1: seq<Turn>, es1: seq<Planning.Event>)
    returns (ts: seq<Turn>, es: seq<Planning.Event>)
    requires Enabled(t, change) && !Careless(t, change)
    requires CarefulRun(ts1, es1) && ts1[0] == Planning.Step(t, change)
    ensures CarefulRun(ts, es) && ts == [t] + ts1 && es == [change] + es1
  {
    ts, es := [t] + ts1, [change] + es1;
  }

  /** A handler that is exposed with nothing stored can act on the past. */
  lemma ExposedActs(t: Turn, g: nat, sc: Scene) returns (ts: seq<Turn>, es: seq<Planning.Event>)
    requires TurnInv(t) && !t.processed && t.stored.None? && g < |t.handlers| && Exposed(t, g)
    ensures CarefulRun(ts, es) && ts[0] == t && es != [] && ActsOnPassed(ts[|es| - 1], es[|es| - 1])
  {
    assert HandlerAges(t.store, t.handlers[g]);
    var shown := t.handlers[g].draft.shown;
    var id :| id in shown;
    CanPass(t.store, shown, id);
    if HasPassed(t.store, shown) {
      ActsOnPassedExactly(t, g, sc);
      ts, es := OneStep(t, Finishes(g, sc));
    } else {
      var change := Elsewhere(TurnFailed(id));
      var u := t.(store := Booking.Step(t.store, TurnFailed(id)));
      ActsOnPassedExactly(u, g, sc);
      ts, es := OneStep(u, Finishes(g, sc));
      ts, es := Before(t, change, ts, es);
    }
  }

  /** From a guarded turn: no plan of the model ever acts on passed versions, in
      every careful continuation, if and only if the step is not a careless reset. */
  lemma NeverActsExactlyWhenCareful(t: Turn, e: Planning.Event, sc: Scene)
    requires TurnInv(t) && Enabled(t, e) && Guarded(t)
    ensures NeverActsOnPassed(Planning.Step(t, e)) <==> !Careless(t, e)
  {
    var u := Planning.Step(t, e);
    TurnStep(t, e);
    if Careless(t, e) {
      var g :| 0 <= g < |t.handlers| && g != e.handler && Exposed(t, g);
      var ts, es := ExposedActs(u, g, sc);
    } else {
      StepGuarded(t, e);
      forall ts: seq<Turn>, es: seq<Planning.Event> | CarefulRun(ts, es) && ts[0] == u && es != []
        ensures !ActsOnPassed(ts[|es| - 1], es[|es| - 1])
      {
        var n := |es| - 1;
        GuardedAlong(ts, es, n);
        if ActsOnPassed(ts[n], es[n]) {
          ActsOnPassedExactly(ts[n], es[n].handler, es[n].scene);
          assert Exposed(ts[n], es[n].handler) by {
            assert Fresh(ts[n].store, Versions(map[]));
          }
          assert false;
        }
      }
    }
  }

  // ------------------------------------------------------ a run in which it acts

  predicate FinalCancel(c: Planned, id: nat) {
    c.0 == Command.Cancel(None, Final) && c.1.target == Some(id) && c.1.finalWords
  }

  lemma FinalCancelExecutes(s: State, phone: Phone, c: Planned, now: Policies.Now, time: int, id: nat)
    returns (t: State)
    requires id in s.requests && Visible(s.requests[id]) && Policies.HasPhone(s.requests[id].parties, phone)
    requires FinalCancel(c, id)
    ensures Execute(s, phone, c.0, c.1, now, time) == Ok(t, Some(id), false)
    ensures id in t.requests && t.requests[id].status == Cancelled
  {
    var r := s.requests[id];
    var k :| 0 <= k < |r.parties| && r.parties[k].phone == phone;
    assert Policies.Mine(r.parties[k], phone, None);
    var v := Applied(r, phone, c.0, c.1, now, time);
    assert v == ApplyCancel(r, Final, c.1, now);
    t := Save(s, id, v.request);
  }

  lemma OneCommand(s: State, phone: Phone, c: Planned, gate: Gate, now: Policies.Now, time: int, t: State, id: nat)
    requires Execute(s, phone, c.0, c.1, now, time) == Ok(t, Some(id), false) && !c.0.Donate? && !c.0.ItemFacts?
    requires id in t.requests && t.requests[id].status != Status.Rejected
    ensures RunGated(s, phone, [c], gate, now, time, None) == Ok(t, Some(id), false)
  {
    assert [c][1..] == [];
  }

  lemma NoTail(t: State, id: nat, now: Policies.Now, allowed: bool)
    requires id in t.requests && t.requests[id].status == Cancelled
    ensures Tail(t, id, now, allowed) == t
  {}

  /** A plan that is one final cancellation cancels its request. */
  lemma FinalCancelRuns(s: State, p: Plan, id: nat)
    requires id in s.requests && Visible(s.requests[id]) && Policies.HasPhone(s.requests[id].parties, p.phone)
    requires |p.cmds| == 1 && FinalCancel(p.cmds[0], id) && p.expected == map[]
    ensures id in RunPlan(s, p).requests && RunPlan(s, p).requests[id].status == Cancelled
  {
    SingleIsExecutable(s, p);
    assert p.cmds == [p.cmds[0]];
    var t := FinalCancelExecutes(s, p.phone, p.cmds[0], p.now, p.time, id);
    OneCommand(s, p.phone, p.cmds[0], GateOf(s, p, p.cmds), p.now, p.time, t, id);
    NoTail(t, id, p.now, p.allowed);
  }

  lemma SingleIsExecutable(s: State, p: Plan)
    requires |p.cmds| == 1 && !p.cmds[0].0.Details?
    ensures Executable(s, p) == p.cmds
  {
    var c, keep := p.cmds[0], Runnable(s, p.phone, p.context, p.cmds);
    Reorder.HeadStep(c, []);
    assert [c] + [] == p.cmds;
    Reorder.WhereCons(c, [], keep);
    assert Reorder.Pick(c, keep) == [c];
  }

  /** Both handlers have planned on the request as it was; the first has stored. */
  function TwoHold(s: State, a: Draft, b: Draft): Turn {
    Turn(s, Some(a), false, [Holding(a), Holding(b)])
  }

  lemma BothPlan(s: State, ids: set<nat>, a: seq<Planned>, b: seq<Planned>)
    returns (ts: seq<Turn>, es: seq<Planning.Event>)
    ensures TurnRun(ts, es) && ts[0] == NewTurn(s) && |es| == 6
    ensures ts[6] == TwoHold(s, Draft(a, Shown(s, ids), true), Draft(b, Shown(s, ids), true))
  {
    var shown := Shown(s, ids);
    var da, db := Draft(a, shown, true), Draft(b, shown, true);
    var t1 := Turn(s, None, false, [Looking(shown)]);
    var t2 := Turn(s, None, false, [Looking(shown), Looking(shown)]);
    var t3 := Turn(s, None, false, [Drafted(da), Looking(shown)]);
    var t4 := Turn(s, None, false, [Drafted(da), Drafted(db)]);
    var t5 := Turn(s, Some(da), false, [Holding(da), Drafted(db)]);
    ts := [NewTurn(s), t1, t2, t3, t4, t5, TwoHold(s, da, db)];
    es := [Reads(ids, false), Reads(ids, false), Plans(0, a, true), Plans(1, b, true), Stores(0), Stores(1)];
    assert Next(ts[0], es[0], t1) && Next(t1, es[1], t2) && Next(t2, es[2], t3);
    assert Next(t3, es[3], t4) && Next(t4, es[4], t5) && Next(t5, es[5], ts[6]);
  }

  predicate Next(t: Turn, e: Planning.Event, u: Turn) {
    Enabled(t, e) && Planning.Step(t, e) == u
  }

  /** The request changes, the first handler finds its stored plan stale and
      clears it, and nothing is left that the second would be checked against. */
  lemma StaleAndCleared(s: State, id: nat, d: Draft, sc: Scene) returns (u: State)
    requires d.shown == Shown(s, {id}) && id in s.requests && Visible(s.requests[id])
    requires Policies.HasPhone(s.requests[id].parties, sc.phone)
    ensures Next(TwoHold(s, d, d), Elsewhere(TurnFailed(id)), TwoHold(u, d, d))
    ensures Next(TwoHold(u, d, d), Finishes(0, sc), Turn(u, Some(d), false, [Stale, Holding(d)]))
    ensures Next(Turn(u, Some(d), false, [Stale, Holding(d)]), Resets(0), Turn(u, None, false, [Over, Holding(d)]))
    ensures HasPassed(u, d.shown) && id in u.requests && Visible(u.requests[id])
    ensures Policies.HasPhone(u.requests[id].parties, sc.phone)
  {
    u := HandOver(s, id);
    assert u == Booking.Step(s, TurnFailed(id));
    HandedOver(s, id, sc.phone);
    CanPass(s, d.shown, id);
  }

  /** The turn in which the second handler holds an outdated plan and nothing is
      stored. */
  lemma ReachCleared(s: State, id: nat, d: Draft, sc: Scene)
    returns (ts: seq<Turn>, es: seq<Planning.Event>, u: State)
    requires d == Draft(d.cmds, Shown(s, {id}), true) && id in s.requests && Visible(s.requests[id])
    requires Policies.HasPhone(s.requests[id].parties, sc.phone)
    ensures TurnRun(ts, es) && ts[0] == NewTurn(s) && |es| == 9 && ts[9] == Turn(u, None, false, [Over, Holding(d)])
    ensures es[6] == Elsewhere(TurnFailed(id)) && es[8] == Resets(0)
    ensures HasPassed(u, d.shown) && id in u.requests && Visible(u.requests[id])
    ensures Policies.HasPhone(u.requests[id].parties, sc.phone)
  {
    ts, es := BothPlan(s, {id}, d.cmds, d.cmds);
    u := StaleAndCleared(s, id, d, sc);
    ts, es := Extend(ts, es, Elsewhere(TurnFailed(id)), TwoHold(u, d, d));
    ts, es := Extend(ts, es, Finishes(0, sc), Turn(u, Some(d), false, [Stale, Holding(d)]));
    ts, es := Extend(ts, es, Resets(0), Turn(u, None, false, [Over, Holding(d)]));
  }

  /** For every request a customer is on: a plan of the model, made on a version
      that has passed, cancels it for good. */
  lemma OutdatedPlanActs(s: State, id: nat, rd: Reading, sc: Scene)
    returns (ts: seq<Turn>, es: seq<Planning.Event>)
    requires id in s.requests && Visible(s.requests[id])
    requires Policies.HasPhone(s.requests[id].parties, sc.phone) && rd.target == Some(id) && rd.finalWords
    ensures TurnRun(ts, es) && ts[0] == NewTurn(s) && |es| == 10
    ensures es[6] == Elsewhere(TurnFailed(id)) && es[8] == Resets(0) && es[9] == Finishes(1, sc)
    ensures ActsOnPassed(ts[9], es[9])
    ensures id in ts[10].store.requests && ts[10].store.requests[id].status == Cancelled
  {
    var d := Draft([(Command.Cancel(None, Final), rd)], Shown(s, {id}), true);
    var u;
    ts, es, u := ReachCleared(s, id, d, sc);
    ActsOnPassedExactly(ts[9], 1, sc);
    var last := LastActs(u, d, sc, id);
    ts, es := Extend(ts, es, Finishes(1, sc), last);
  }

  lemma Extend(ts: seq<Turn>, es: seq<Planning.Event>, e: Planning.Event, u: Turn)
    returns (ts1: seq<Turn>, es1: seq<Planning.Event>)
    requires TurnRun(ts, es) && Next(ts[|es|], e, u)
    ensures TurnRun(ts1, es1) && ts1 == ts + [u] && es1 == es + [e]
  {
    ts1, es1 := ts + [u], es + [e];
  }

  lemma HandedOver(s: State, id: nat, phone: Phone)
    requires id in s.requests && Visible(s.requests[id]) && Policies.HasPhone(s.requests[id].parties, phone)
    ensures var u := HandOver(s, id);
            id in u.requests && Visible(u.requests[id]) && Policies.HasPhone(u.requests[id].parties, phone)
  {
    var ps, qs := s.requests[id].parties, ByRole(s.requests[id].parties);
    var k :| 0 <= k < |ps| && ps[k].phone == phone;
    assert qs == ps || qs[1 - k] == ps[k];
  }

  lemma LastActs(u: State, d: Draft, sc: Scene, id: nat) returns (last: Turn)
    requires |d.cmds| == 1 && FinalCancel(d.cmds[0], id)
    requires id in u.requests && Visible(u.requests[id]) && Policies.HasPhone(u.requests[id].parties, sc.phone)
    ensures Next(Turn(u, None, false, [Over, Holding(d)]), Finishes(1, sc), last)
    ensures id in last.store.requests && last.store.requests[id].status == Cancelled
  {
    var t := Turn(u, None, false, [Over, Holding(d)]);
    var p := PlanToRun(t, d, sc);
    FinalCancelRuns(u, p, id);
    last := Turn(RunPlan(u, p), None, true, [Over, Over]);
  }
}
