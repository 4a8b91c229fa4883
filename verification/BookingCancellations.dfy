/** What a cancellation for now ("ask") means for the dates that follow it, from
    inside the transaction that holds it to any number of transactions later. */
module BookingCancellations {
  import opened Types
  import opened Policies
  import opened Commands
  import opened Booking
  import opened Lifecycle
  import opened BookingRuns
  import opened BookingPaths
  import opened BookingLoops
  import opened BookingTheorems

  /** The plan commits, and the one command in it that runs and asks to cancel
      request id for now is command j. */
  predicate CancelsWithAsk(s: State, e: Event, id: nat, j: nat) {
    && CancelCommand(e, id, true, j) && RunsOn(s, e, j).Some?
    && forall i :: 0 <= i < |e.cmds| && i != j && CancelCommand(e, id, true, i) ==> RunsOn(s, e, i).None?
  }

  /** Before the ask: the request is booked for d, or has been cancelled for good. */
  predicate BookedOrCancelled(s: State, id: nat, d: Date) {
    && id in s.requests
    && (|| (s.requests[id].status == Coordinated && s.requests[id].runDate == Some(d))
        || s.requests[id].status == Cancelled)
  }

  lemma TargetedBefore(s: State, k: nat, phone: Phone, cmd: Command, rd: Reading, now: Now, time: int, id: nat, d: Date)
    requires BookedOrCancelled(s, id, d) && (k == id ==> s.requests[id].status == Cancelled)
    ensures var o := Targeted(s, k, phone, cmd, rd, now, time); o.Ok? ==> BookedOrCancelled(o.state, id, d)
  {}

  /** Once cancelled for good, a request stays cancelled for the rest of a plan. */
  lemma CancelledStays(s: State, phone: Phone, cmd: Command, rd: Reading, now: Now, time: int, id: nat, d: Date)
    requires StoreInv(s) && BookedOrCancelled(s, id, d) && s.requests[id].status == Cancelled
    ensures var o := Execute(s, phone, cmd, rd, now, time); o.Ok? ==> BookedOrCancelled(o.state, id, d)
  {
    if cmd.Donate? || cmd.ReceiveFromDonor? {
      OpenLeavesCancelled(s, phone, cmd, rd, time, id, d);
    } else if rd.target.Some? && !cmd.AskStatus? && !cmd.Seek? && !cmd.Interest? {
      TargetedBefore(s, rd.target.value, phone, cmd, rd, now, time, id, d);
    }
  }

  lemma OpenLeavesCancelled(s: State, phone: Phone, cmd: Command, rd: Reading, time: int, id: nat, d: Date)
    requires id <= s.last && BookedOrCancelled(s, id, d) && s.requests[id].status == Cancelled
    requires cmd.Donate? || cmd.ReceiveFromDonor?
    ensures var o := Open(s, phone, cmd, rd, time); o.Ok? ==> BookedOrCancelled(o.state, id, d)
  {
    var v := Opened(phone, cmd, rd, time);
    if v.Changed? { VerdictLeavesCancelled(s, v.request, rd, id, d); }
  }

  /** A new request takes a new number, and an open one is saved as it is. */
  lemma VerdictLeavesCancelled(s: State, r: Request, rd: Reading, id: nat, d: Date)
    requires id <= s.last && BookedOrCancelled(s, id, d) && s.requests[id].status == Cancelled
    ensures BookedOrCancelled(OpenVerdict(s, r, rd).state, id, d)
  {
    var t := Create(s, r);
    assert t.last == s.last + 1 && t.requests[id] == s.requests[id];
  }

  /** Cancelling in another way leaves the booked request or ends it for good. */
  lemma OtherCancel(s: State, phone: Phone, cmd: Command, rd: Reading, now: Now, time: int, id: nat, d: Date)
    requires BookedOrCancelled(s, id, d) && s.requests[id].status == Coordinated
    requires cmd.Cancel? && cmd.choice != CancelChoice.Ask
    ensures var o := Targeted(s, id, phone, cmd, rd, now, time); o.Ok? ==> BookedOrCancelled(o.state, id, d)
  {}

  lemma CommandBefore(s: State, e: Event, k: nat, id: nat, d: Date)
    requires StoreInv(s) && BookedOrCancelled(s, id, d)
    requires e.PlanFinished? && k < |e.cmds| && !CancelCommand(e, id, true, k)
    ensures var o := Execute(s, e.phone, e.cmds[k].0, e.cmds[k].1, e.now, e.time);
            o.Ok? ==> BookedOrCancelled(o.state, id, d)
  {
    var cmd, rd := e.cmds[k].0, e.cmds[k].1;
    var o := Execute(s, e.phone, cmd, rd, e.now, e.time);
    if s.requests[id].status == Cancelled {
      CancelledStays(s, e.phone, cmd, rd, e.now, e.time, id, d);
    } else if cmd.Cancel? && rd.target == Some(id) {
      OtherCancel(s, e.phone, cmd, rd, e.now, e.time, id, d);
    } else if o.Ok? {
      CommandFreezes(s, e, k, id);
    }
  }

  /** The ask itself, on the booked request: a week is added to its date. */
  lemma AskPushes(s: State, phone: Phone, cmd: Command, rd: Reading, now: Now, time: int, id: nat, d: Date)
    requires BookedOrCancelled(s, id, d) && cmd.Cancel? && cmd.choice == CancelChoice.Ask
    requires Targeted(s, id, phone, cmd, rd, now, time).Ok?
    ensures var o := Targeted(s, id, phone, cmd, rd, now, time);
            && id in o.state.requests && o.request == Some(id) && !Ends(o.state, Some(id), o.handoff)
            && o.state.requests[id].earliest == Some(d + 7)
  {
    var r := s.requests[id];
    assert Applied(r, phone, cmd, rd, now, time) == ApplyCancel(r, CancelChoice.Ask, rd, now);
  }

  /** Command j itself, and the rest of the list. */
  lemma AskNow(s: State, e: Event, request: Option<nat>, id: nat, j: nat, d: Date)
    requires StoreInv(s) && BookedOrCancelled(s, id, d) && CancelCommand(e, id, true, j)
    requires ExecuteAll(s, e.phone, e.cmds[j..], e.now, e.time, request).Ok?
    requires NoCancelFrom(s, e, j, request, id, true, Some(j))
    ensures var t := ExecuteAll(s, e.phone, e.cmds[j..], e.now, e.time, request).state;
            StoreInv(t) && id in t.requests && t.requests[id].earliest == Some(d + 7)
  {
    var cmd, rd := e.cmds[j].0, e.cmds[j].1;
    var o := Execute(s, e.phone, cmd, rd, e.now, e.time);
    Turn(s, e, j, request);
    assert o == Targeted(s, id, e.phone, cmd, rd, e.now, e.time);
    AskPushes(s, e.phone, cmd, rd, e.now, e.time, id, d);
    ExecuteKeeps(s, e.phone, cmd, rd, e.now, e.time);
    NoCancelLater(s, e, j, request, id, true, Some(j));
    LoopKeepsEarliest(o.state, e, j + 1, Some(id), id, Some(j));
  }

  /** The loop from command k on commits and comes to its one ask, command j. */
  predicate OnTheWay(s: State, e: Event, k: nat, request: Option<nat>, id: nat, j: nat, d: Date) {
    && CancelCommand(e, id, true, j) && k <= j && BookedOrCancelled(s, id, d)
    && ExecuteAll(s, e.phone, e.cmds[k..], e.now, e.time, request).Ok?
    && StoreBefore(s, e.phone, e.cmds[k..], e.now, e.time, request, j - k).Some?
    && NoCancelFrom(s, e, k, request, id, true, Some(j))
  }

  /** One turn on the way. */
  lemma TurnOnTheWay(s: State, e: Event, k: nat, request: Option<nat>, id: nat, j: nat, d: Date)
    requires StoreInv(s) && OnTheWay(s, e, k, request, id, j, d) && k < j
    ensures var o := Execute(s, e.phone, e.cmds[k].0, e.cmds[k].1, e.now, e.time);
            && o.Ok? && StoreInv(o.state) && OnTheWay(o.state, e, k + 1, Current(o, request), id, j, d)
            && ExecuteAll(s, e.phone, e.cmds[k..], e.now, e.time, request)
               == ExecuteAll(o.state, e.phone, e.cmds[k + 1..], e.now, e.time, Current(o, request))
  {
    Turn(s, e, k, request);
    assert !CancelCommand(e, id, true, k);
    CommandBefore(s, e, k, id, d);
    ExecuteKeeps(s, e.phone, e.cmds[k].0, e.cmds[k].1, e.now, e.time);
    LaterStore(s, e, k, request, j);
    NoCancelLater(s, e, k, request, id, true, Some(j));
  }

  lemma {:induction false} AskTakesEffect(s: State, e: Event, k: nat, request: Option<nat>, id: nat, j: nat, d: Date)
    requires StoreInv(s) && OnTheWay(s, e, k, request, id, j, d)
    ensures var t := ExecuteAll(s, e.phone, e.cmds[k..], e.now, e.time, request).state;
            StoreInv(t) && id in t.requests && t.requests[id].earliest == Some(d + 7)
    decreases j - k
  {
    if k == j {
      AskNow(s, e, request, id, j, d);
    } else {
      var o := Execute(s, e.phone, e.cmds[k].0, e.cmds[k].1, e.now, e.time);
      TurnOnTheWay(s, e, k, request, id, j, d);
      AskTakesEffect(o.state, e, k + 1, Current(o, request), id, j, d);
    }
  }

  lemma PlanSetsEarliest(s: State, e: Event, id: nat, j: nat, d: Date)
    requires StoreInv(s) && BookedOrCancelled(s, id, d) && CancelsWithAsk(s, e, id, j)
    ensures var t := FinishPlan(s, e.phone, e.expected, e.cmds, e.now, e.time, e.allowed);
            id in t.requests && t.requests[id].earliest == Some(d + 7)
  {
    assert e.cmds[0..] == e.cmds;
    AskTakesEffect(s, e, 0, None, id, j, d);
    EndKeepsEarliest(s, ExecuteAll(s, e.phone, e.cmds, e.now, e.time, None), e, id);
  }

  /** The plain case: a plan that is only that command, from a side of the
      request, with the word for it. */
  lemma AskAloneCancels(s: State, e: Event, id: nat)
    requires id in s.requests && s.requests[id].status == Coordinated
    requires CancelCommand(e, id, true, 0) && |e.cmds| == 1 && Fresh(s, e.expected)
    requires e.cmds[0].1.cancelWords && HasPhone(s.requests[id].parties, e.phone)
    ensures CancelsWithAsk(s, e, id, 0)
  {
    var cmd, rd := e.cmds[0].0, e.cmds[0].1;
    AskSucceeds(s, e.phone, cmd, rd, e.now, e.time, id);
    assert Execute(s, e.phone, cmd, rd, e.now, e.time) == Targeted(s, id, e.phone, cmd, rd, e.now, e.time);
    assert e.cmds[1..] == [];
    assert ExecuteAll(s, e.phone, e.cmds, e.now, e.time, None).Ok?;
    assert StoreBefore(s, e.phone, e.cmds, e.now, e.time, None, 0) == Some(s);
  }

  lemma AskSucceeds(s: State, phone: Phone, cmd: Command, rd: Reading, now: Now, time: int, id: nat)
    requires id in s.requests && s.requests[id].status == Coordinated && HasPhone(s.requests[id].parties, phone)
    requires cmd.Cancel? && cmd.choice == CancelChoice.Ask && rd.cancelWords
    ensures Targeted(s, id, phone, cmd, rd, now, time).Ok?
  {
    var r := s.requests[id];
    var k :| 0 <= k < |r.parties| && r.parties[k].phone == phone;
    assert Mine(r.parties[k], phone, None);
    assert Applied(r, phone, cmd, rd, now, time) == ApplyCancel(r, CancelChoice.Ask, rd, now);
  }

  /** After a request coordinated for d is cancelled with "ask", everything
      offered and everything booked, by the rest of that plan, its own tail and
      every transaction before the next such cancellation that takes effect, is
      at least a week after d. */
  lemma CancelledDateIsNotReused(s: State, e: Event, id: nat, j: nat, es: seq<Event>)
    requires StoreInv(s) && id in s.requests && s.requests[id].status == Coordinated
    requires CancelsWithAsk(s, e, id, j)
    requires forall i :: 0 <= i < |es| ==> !AsksIn(Step(s, e), es, id, i)
    ensures s.requests[id].runDate.Some? && id in After(Step(s, e), es).requests
    ensures var d, q := s.requests[id].runDate.value, After(Step(s, e), es).requests[id];
            && (q.proposed.Some? ==> q.proposed.value >= d + 7)
            && (q.runDate.Some? ==> q.runDate.value >= d + 7)
  {
    assert RequestInv(s.requests[id]);
    PlanSetsEarliest(s, e, id, j, s.requests[id].runDate.value);
    StepKeeps(s, e);
    NothingBeforeEarliest(Step(s, e), es, id);
  }
}
