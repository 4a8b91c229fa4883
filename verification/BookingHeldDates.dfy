/** A coordinated request that is handed to a human keeps its run date without
    being booked. It is never booked again, on any date, until a cancellation
    clears the date. */
module BookingHeldDates {
  import opened Types
  import opened Policies
  import opened Commands
  import opened Booking
  import opened Lifecycle
  import opened BookingRuns
  import opened BookingPaths
  import opened BookingLoops
  import opened BookingTheorems

  predicate HoldsDate(r: Request, d: Date) {
    r.runDate == Some(d) && !IsBooked(r)
  }

  predicate HeldAt(s: State, id: nat, d: Date) {
    id in s.requests && HoldsDate(s.requests[id], d)
  }

  /** A cancellation that clears the date of request id takes effect: it runs, and
      its plan commits. */
  predicate ClearsBy(s: State, e: Event, id: nat) {
    e.PlanFinished? && exists j :: 0 <= j < |e.cmds| && Clearing(e, id, j) && RunsOn(s, e, j).Some?
  }

  // ------------------------------------------------------------- how it arises

  /** The failed turn leaves the date, and so does the admin's resumption. */
  lemma HandedOverAndResumed(s: State, id: nat, version: nat)
    requires StoreInv(s) && id in s.requests && s.requests[id].status == Coordinated
    ensures s.requests[id].runDate.Some?
    ensures var d, t := s.requests[id].runDate.value, HandOver(s, id);
            && HeldAt(t, id, d) && t.requests[id].status == Human
            && (version == t.requests[id].version ==>
                  HeldAt(AdminResume(t, id, version), id, d)
                  && AdminResume(t, id, version).requests[id].status == Collecting)
  {
    assert RequestInv(s.requests[id]);
  }

  /** New dates are still offered to it. */
  lemma StillOffered(s: State, id: nat, d: Date, now: Now)
    requires StoreInv(s) && HeldAt(s, id, d) && NeedsProposal(s.requests[id], now)
    requires Propose(s, s.requests[id], now).1.Some?
    ensures var t := OfferDate(s, id, now);
            && HeldAt(t, id, d) && t.requests[id].status == AwaitingApproval
            && t.requests[id].proposed == Propose(s, s.requests[id], now).1
  {}

  // -------------------------------------------------------- it is never booked

  lemma {:induction false} HeldAlong(rs: seq<Request>, e: Event, id: nat, d: Date, k: nat)
    requires Path(rs, e, id) && k < |rs| && HoldsDate(rs[0], d) && !NamesClearing(e, id)
    ensures HoldsDate(rs[k], d)
  {
    if k == 0 {
    } else {
      HeldAlong(rs, e, id, d, k - 1);
      assert Moves(rs[k - 1], rs[k], e, id);
    }
  }

  lemma CommandKeepsHeld(s: State, e: Event, k: nat, id: nat, d: Date)
    requires StoreInv(s) && HeldAt(s, id, d) && e.PlanFinished? && k < |e.cmds| && !Clearing(e, id, k)
    requires Execute(s, e.phone, e.cmds[k].0, e.cmds[k].1, e.now, e.time).Ok?
    ensures HeldAt(Execute(s, e.phone, e.cmds[k].0, e.cmds[k].1, e.now, e.time).state, id, d)
  {
    var one := Alone(e, k);
    ExecuteNeverDeletes(s, one, 0, id);
    var rs := ExecuteLeads(s, one, 0, id);
    assert !NamesClearing(one, id);
    HeldAlong(rs, one, id, d, |rs| - 1);
  }

  /** No clearing command runs from k on. */
  predicate NoClearingFrom(s: State, e: Event, k: nat, request: Option<nat>, id: nat) {
    e.PlanFinished? ==>
      forall j :: k <= j < |e.cmds| && Clearing(e, id, j) ==>
        StoreBefore(s, e.phone, e.cmds[k..], e.now, e.time, request, j - k).None?
  }

  lemma NoClearingLater(s: State, e: Event, k: nat, request: Option<nat>, id: nat)
    requires e.PlanFinished? && k < |e.cmds| && NoClearingFrom(s, e, k, request, id)
    requires var o := Execute(s, e.phone, e.cmds[k].0, e.cmds[k].1, e.now, e.time);
             o.Ok? && !Ends(o.state, Current(o, request), o.handoff)
    ensures var o := Execute(s, e.phone, e.cmds[k].0, e.cmds[k].1, e.now, e.time);
            NoClearingFrom(o.state, e, k + 1, Current(o, request), id)
  {
    var o := Execute(s, e.phone, e.cmds[k].0, e.cmds[k].1, e.now, e.time);
    forall j | k + 1 <= j < |e.cmds| && Clearing(e, id, j)
      ensures StoreBefore(o.state, e.phone, e.cmds[k + 1..], e.now, e.time, Current(o, request), j - (k + 1)).None?
    {
      LaterStore(s, e, k, request, j);
    }
  }

  lemma {:induction false} LoopKeepsHeld(s: State, e: Event, k: nat, request: Option<nat>, id: nat, d: Date)
    requires StoreInv(s) && HeldAt(s, id, d) && e.PlanFinished? && k <= |e.cmds|
    requires ExecuteAll(s, e.phone, e.cmds[k..], e.now, e.time, request).Ok?
    requires NoClearingFrom(s, e, k, request, id)
    ensures var t := ExecuteAll(s, e.phone, e.cmds[k..], e.now, e.time, request).state;
            StoreInv(t) && HeldAt(t, id, d)
    decreases |e.cmds| - k
  {
    if k == |e.cmds| {
    } else {
      Turn(s, e, k, request);
      var o := Execute(s, e.phone, e.cmds[k].0, e.cmds[k].1, e.now, e.time);
      ExecuteKeeps(s, e.phone, e.cmds[k].0, e.cmds[k].1, e.now, e.time);
      assert !Clearing(e, id, k);
      CommandKeepsHeld(s, e, k, id, d);
      if !Ends(o.state, Current(o, request), o.handoff) {
        NoClearingLater(s, e, k, request, id);
        LoopKeepsHeld(o.state, e, k + 1, Current(o, request), id, d);
      }
    }
  }

  lemma PlanKeepsHeld(s: State, e: Event, id: nat, d: Date)
    requires StoreInv(s) && HeldAt(s, id, d) && e.PlanFinished? && !ClearsBy(s, e, id)
    ensures HeldAt(Step(s, e), id, d)
  {
    if Commits(s, e) {
      assert e.cmds[0..] == e.cmds;
      LoopKeepsHeld(s, e, 0, None, id, d);
      var o := ExecuteAll(s, e.phone, e.cmds, e.now, e.time, None);
      EndKeepsIds(s, o, e, id);
      var rs := EndLeads(s, o, e, id);
      HeldAlong(rs, e.(cmds := []), id, d, |rs| - 1);
    }
  }

  lemma StepKeepsHeld(s: State, e: Event, id: nat, d: Date)
    requires StoreInv(s) && HeldAt(s, id, d) && !ClearsBy(s, e, id)
    ensures HeldAt(Step(s, e), id, d)
  {
    if e.PlanFinished? {
      PlanKeepsHeld(s, e, id, d);
    } else {
      StepKeepsIds(s, e, id);
      var rs := StepLeads(s, e, id);
      HeldAlong(rs, e, id, d, |rs| - 1);
    }
  }

  predicate ClearsIn(s: State, es: seq<Event>, id: nat, i: nat)
    requires i < |es|
  {
    ClearsBy(StoreAt(s, es, i), es[i], id)
  }

  lemma HeldOnce(s: State, es: seq<Event>, id: nat, d: Date, n: nat)
    requires n < |es| && StoreInv(StoreAt(s, es, n)) && HeldAt(StoreAt(s, es, n), id, d) && !ClearsIn(s, es, id, n)
    ensures StoreInv(StoreAt(s, es, n + 1)) && HeldAt(StoreAt(s, es, n + 1), id, d)
  {
    var t := StoreAt(s, es, n);
    StepKeeps(t, es[n]);
    StepKeepsHeld(t, es[n], id, d);
  }

  /** Over every run: whatever is offered, approved, retried or coordinated by an
      admin, the request is not booked before a cancellation clears its date. */
  lemma {:induction false} NeverBookedWhileHeld(s: State, es: seq<Event>, id: nat, d: Date, n: nat)
    requires StoreInv(s) && HeldAt(s, id, d) && n <= |es|
    requires forall i :: 0 <= i < n ==> !ClearsIn(s, es, id, i)
    ensures StoreInv(StoreAt(s, es, n)) && HeldAt(StoreAt(s, es, n), id, d)
    ensures !IsBooked(StoreAt(s, es, n).requests[id])
  {
    if n == 0 {
    } else {
      NeverBookedWhileHeld(s, es, id, d, n - 1);
      HeldOnce(s, es, id, d, n - 1);
    }
  }

  /** And such a cancellation does clear it. */
  lemma ClearingClears(s: State, phone: Phone, cmd: Command, rd: Reading, now: Now, time: int, id: nat)
    requires cmd.Cancel? && cmd.choice != CancelChoice.NextWeek && Targeted(s, id, phone, cmd, rd, now, time).Ok?
    ensures var t := Targeted(s, id, phone, cmd, rd, now, time).state; id in t.requests && t.requests[id].runDate.None?
  {
    assert Applied(s.requests[id], phone, cmd, rd, now, time) == ApplyCancel(s.requests[id], cmd.choice, rd, now);
  }
}
