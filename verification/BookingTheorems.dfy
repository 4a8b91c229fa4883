/** What holds of a request and of a Tuesday over every run of the store. */
module BookingTheorems {
  import opened Types
  import opened Policies
  import opened Commands
  import opened Booking
  import opened Lifecycle
  import opened BookingRuns
  import opened BookingPaths
  import opened BookingLoops

  // ----------------------------------------------------------------- capacity

  /** No interleaving of proposals, bookings, waitlist passes, cancellations,
      approvals and manual changes overbooks a Tuesday, or moves a capacity
      out of 1..100. */
  lemma CapacityNeverExceeded(s: State, es: seq<Event>, d: Date)
    requires Initial(s)
    ensures var t := After(s, es);
            && |BookedOn(t, d)| <= CapacityOf(t, d)
            && (d in t.runs ==> Tuesday(d) && 1 <= t.runs[d].capacity <= MAX_CAPACITY)
            && (BookedOn(t, d) != {} ==> d in t.runs)
  {
    InitialInv(s);
    AfterKeeps(s, es);
  }

  /** A date is offered only while its run is open, and at that moment the
      bookings and the open offers, this one included, fit its capacity. (They
      need not fit later: a booking counts only the bookings before it.) */
  lemma OfferLeavesRoom(s: State, id: nat, now: Now)
    requires id in s.requests && Propose(s, s.requests[id], now).1.Some?
    ensures var (s1, date) := Propose(s, s.requests[id], now);
            var d, t := date.value, Save(s1, id, s.requests[id].(proposed := date, status := AwaitingApproval));
            && d == ProposalDay(now, s.requests[id].earliest)
            && d in t.runs && t.runs[d].open && !(SameDay(now) && d == now.day)
            && |BookedOn(t, d)| + |HeldOn(t, d)| <= t.runs[d].capacity
  {
    var (s1, date) := Propose(s, s.requests[id], now);
    var d, t := date.value, Save(s1, id, s.requests[id].(proposed := date, status := AwaitingApproval));
    SameBooked(s, s1);
    assert BookedOn(t, d) <= BookedOn(s1, d) && HeldOn(t, d) <= HeldOn(s1, d) + {id};
    SubsetSize(BookedOn(t, d), BookedOn(s1, d));
    SubsetSize(HeldOn(t, d), HeldOn(s1, d) + {id});
  }

  // ------------------------------------------------------- coordinated requests

  /** A coordinated request is well formed: one donor and one receiver, each
      approved by their own phone, and the date both of them approved is its
      Tuesday; and the consent for it was given on the facts it has now. */
  lemma CoordinatedIsWellFormed(s: State, es: seq<Event>, id: nat)
    requires Initial(s) && id in After(s, es).requests && After(s, es).requests[id].status == Coordinated
    ensures var r := After(s, es).requests[id];
            && r.proposed.None? && r.runDate.Some? && Tuesday(r.runDate.value)
            && |r.parties| == 2 && r.parties[0].role == Donor && r.parties[1].role == Receiver
            && forall p :: p in r.parties ==>
                 && p.approvedBy == Some(p.phone) && p.scheduleDate == r.runDate
                 && ConsentOf(r, p.role) == Some(Consent(p.phone, r.runDate.value, FactsOf(r)))
  {
    InitialInv(s);
    AfterKeeps(s, es);
    var r := After(s, es).requests[id];
    assert RequestInv(r);
    forall p | p in r.parties
      ensures ConsentOf(r, p.role) == Some(Consent(p.phone, r.runDate.value, FactsOf(r)))
    {
      assert p.scheduleDate == r.runDate;
      assert FreshConsent(r, p);
    }
  }

  /** The only transactions that change a coordinated request: a committing plan
      that comes to a cancellation of it, a failed turn handing it to a human,
      and its completion. */
  predicate EndsBooking(s: State, e: Event, id: nat) {
    || CancelsBy(s, e, id, false)
    || e == TurnFailed(id)
    || (e.AdminCompletes? && e.id == id && id in s.requests && e.version == s.requests[id].version)
  }

  /** Any other transaction, whatever commands it holds, leaves the coordinated
      request as it was. */
  lemma CoordinatedIsFrozen(s: State, e: Event, id: nat)
    requires StoreInv(s) && id in s.requests && s.requests[id].status == Coordinated
    requires !EndsBooking(s, e, id)
    ensures id in Step(s, e).requests
    ensures var q := Step(s, e).requests[id]; q == s.requests[id].(version := q.version)
  {
    StepKeepsIds(s, e, id);
    if e.PlanFinished? {
      PlanFreezes(s, e, id);
    } else if Step(s, e) != s {
      var rs := StepLeads(s, e, id);
      FrozenAlong(rs, e, id, |rs| - 1);
    }
  }

  // ------------------------------------------------------ versions, stale plans

  lemma {:induction false} PathCountsSaves(rs: seq<Request>, e: Event, id: nat, k: nat)
    requires Path(rs, e, id) && k < |rs|
    ensures rs[k].version == rs[0].version + k
  {
    if k == 0 {
    } else {
      PathCountsSaves(rs, e, id, k - 1);
      assert Moves(rs[k - 1], rs[k], e, id);
    }
  }

  /** A request is never deleted, and after a transaction it is either
      untouched or has a higher version. */
  lemma StepAdvances(s: State, e: Event, id: nat)
    requires StoreInv(s) && id in s.requests
    ensures id in Step(s, e).requests
    ensures var r, q := s.requests[id], Step(s, e).requests[id]; q == r || q.version > r.version
  {
    StepKeepsIds(s, e, id);
    var rs := StepLeads(s, e, id);
    PathCountsSaves(rs, e, id, |rs| - 1);
  }

  lemma {:induction false} AfterAdvances(s: State, es: seq<Event>, id: nat)
    requires StoreInv(s) && id in s.requests
    ensures id in After(s, es).requests
    ensures var r, q := s.requests[id], After(s, es).requests[id]; q == r || q.version > r.version
    decreases |es|
  {
    if es == [] {
    } else {
      StepAdvances(s, es[0], id);
      StepKeeps(s, es[0]);
      AfterAdvances(Step(s, es[0]), es[1..], id);
    }
  }

  /** The versions of the requests a planner was shown. */
  predicate SeenBy(s: State, expected: map<nat, nat>) {
    forall id :: id in expected ==> id in s.requests && expected[id] == s.requests[id].version
  }

  /** The version check alone: a plan finished with versions read on store s acts
      only if each of their requests is still exactly as it was. Which versions a
      plan is finished with is the matter of module Planning. */
  lemma StalePlanNeverActs(s: State, es: seq<Event>, plan: Event, id: nat)
    requires StoreInv(s) && plan.PlanFinished? && SeenBy(s, plan.expected) && id in plan.expected
    ensures var t := After(s, es);
            Step(t, plan) != t ==> id in t.requests && t.requests[id] == s.requests[id]
  {
    AfterAdvances(s, es, id);
  }

  // ------------------------------------------------------------ fresh consent

  /** The store after the first n transactions. */
  function StoreAt(s: State, es: seq<Event>, n: nat): State
    requires n <= |es|
  {
    if n == 0 then s else Step(StoreAt(s, es, n - 1), es[n - 1])
  }

  lemma {:induction false} RestOfRun(s: State, es: seq<Event>, n: nat)
    requires n <= |es|
    ensures After(StoreAt(s, es, n), es[n..]) == After(s, es)
  {
    if n == 0 {
      assert es[0..] == es;
    } else {
      RestOfRun(s, es, n - 1);
      assert es[n - 1..][1..] == es[n..] && es[n - 1..][0] == es[n - 1];
    }
  }

  lemma {:induction false} StoreAtKeeps(s: State, es: seq<Event>, n: nat)
    requires Initial(s) && n <= |es|
    ensures StoreInv(StoreAt(s, es, n))
  {
    if n == 0 {
      InitialInv(s);
    } else {
      StoreAtKeeps(s, es, n - 1);
      StepKeeps(StoreAt(s, es, n - 1), es[n - 1]);
    }
  }

  /** The initial store and the store after each transaction. */
  function Stores(s: State, es: seq<Event>): (ss: seq<State>)
    ensures |ss| == |es| + 1
    ensures forall n :: 0 <= n < |ss| ==> ss[n] == StoreAt(s, es, n)
  {
    seq(|es| + 1, n requires 0 <= n <= |es| => StoreAt(s, es, n))
  }

  /** Transaction k gave consent c, and in every store since then it has stood. */
  ghost predicate OriginAt(ss: seq<State>, es: seq<Event>, id: nat, role: Role, c: Consent, k: nat)
    requires |ss| == |es| + 1
  {
    && k < |es|
    && GivenBy(ss[k], es[k], id, c)
    && forall m :: k < m <= |es| ==> StandsAt(ss[m], id, role, c)
  }

  /** A consent that stands stood before the last transaction, or was given in it. */
  lemma LastStands(s: State, es: seq<Event>, n: nat, id: nat, role: Role, c: Consent)
    requires Initial(s) && 0 < n <= |es| && StandsAt(StoreAt(s, es, n), id, role, c)
    ensures || StandsAt(StoreAt(s, es, n - 1), id, role, c)
            || GivenBy(StoreAt(s, es, n - 1), es[n - 1], id, c)
  {
    StoreAtKeeps(s, es, n - 1);
    StoodOrGiven(StoreAt(s, es, n - 1), es[n - 1], id, role, c);
  }

  /** The last store in which c did not stand. */
  lemma {:induction false} LastWithout(ss: seq<State>, id: nat, role: Role, c: Consent, n: nat) returns (k: nat)
    requires n < |ss| && !StandsAt(ss[0], id, role, c) && StandsAt(ss[n], id, role, c)
    ensures k < n && !StandsAt(ss[k], id, role, c)
    ensures forall m :: k < m <= n ==> StandsAt(ss[m], id, role, c)
  {
    if StandsAt(ss[n - 1], id, role, c) { k := LastWithout(ss, id, role, c, n - 1); } else { k := n - 1; }
  }

  /** Every approval of a date a store shows goes back to one committed plan of
      that side's own phone, one of whose commands explicitly approved exactly
      that date on a store in which it was the live proposal of this request and
      the facts were those of the consent; and in every store since then the
      approval stood and no name, settlement, address, floor or item had changed. */
  lemma ConsentHasAnOrigin(s: State, es: seq<Event>, id: nat, role: Role, c: Consent) returns (k: nat)
    requires Initial(s) && StandsAt(After(s, es), id, role, c)
    ensures OriginAt(Stores(s, es), es, id, role, c, k)
  {
    RestOfRun(s, es, |es|);
    k := LastWithout(Stores(s, es), id, role, c, |es|);
    LastStands(s, es, k + 1, id, role, c);
  }

  /** So when a request is coordinated at d, each side's own phone approved d
      as the live proposal, on the facts the booking is made with. */
  lemma BookingHasFreshConsent(s: State, es: seq<Event>, id: nat, role: Role) returns (k: nat)
    requires Initial(s) && id in After(s, es).requests && After(s, es).requests[id].status == Coordinated
    ensures var r := After(s, es).requests[id];
            && Side(r, role).Some? && r.runDate.Some?
            && OriginAt(Stores(s, es), es, id, role, Consent(Side(r, role).value.phone, r.runDate.value, FactsOf(r)), k)
  {
    CoordinatedIsWellFormed(s, es, id);
    var r := After(s, es).requests[id];
    var p := Side(r, role).value;
    assert p in r.parties;
    k := ConsentHasAnOrigin(s, es, id, role, Consent(p.phone, r.runDate.value, FactsOf(r)));
  }

  // ------------------------------------------------------- sides and receivers

  lemma {:induction false} SidesAlong(rs: seq<Request>, e: Event, id: nat, role: Role, k: nat)
    requires Path(rs, e, id) && k < |rs| && Side(rs[0], role).Some?
    ensures Side(rs[k], role).Some? && Side(rs[k], role).value.phone == Side(rs[0], role).value.phone
  {
    if k == 0 {
    } else {
      SidesAlong(rs, e, id, role, k - 1);
      assert Moves(rs[k - 1], rs[k], e, id);
    }
  }

  /** Once a side is linked its phone is never replaced: in particular a
      request gains at most one receiver, ever. */
  lemma {:induction false} LinkedSideStays(s: State, es: seq<Event>, id: nat, role: Role)
    requires StoreInv(s) && id in s.requests && Side(s.requests[id], role).Some?
    ensures id in After(s, es).requests
    ensures var q := After(s, es).requests[id];
            Side(q, role).Some? && Side(q, role).value.phone == Side(s.requests[id], role).value.phone
    decreases |es|
  {
    if es == [] {
    } else {
      StepKeepsIds(s, es[0], id);
      var rs := StepLeads(s, es[0], id);
      SidesAlong(rs, es[0], id, role, |rs| - 1);
      StepKeeps(s, es[0]);
      LinkedSideStays(Step(s, es[0]), es[1..], id, role);
    }
  }

  // ------------------------------------------------------------ cancelled dates

  /** In transaction i a cancellation for now of request id takes effect. */
  predicate AsksIn(s: State, es: seq<Event>, id: nat, i: nat)
    requires i < |es|
  {
    CancelsBy(StoreAt(s, es, i), es[i], id, true)
  }

  /** One transaction on, unless it asks to cancel. */
  lemma EarliestStaysOnce(s: State, es: seq<Event>, id: nat, n: nat)
    requires n < |es| && StoreInv(StoreAt(s, es, n)) && id in StoreAt(s, es, n).requests && !AsksIn(s, es, id, n)
    ensures StoreInv(StoreAt(s, es, n + 1)) && id in StoreAt(s, es, n + 1).requests
    ensures StoreAt(s, es, n + 1).requests[id].earliest == StoreAt(s, es, n).requests[id].earliest
  {
    var t := StoreAt(s, es, n);
    StepKeeps(t, es[n]);
    StepKeepsEarliest(t, es[n], id);
  }

  /** Only a cancellation for now that takes effect moves the earliest date. */
  lemma {:induction false} EarliestStays(s: State, es: seq<Event>, id: nat, n: nat)
    requires StoreInv(s) && id in s.requests && n <= |es|
    requires forall i :: 0 <= i < n ==> !AsksIn(s, es, id, i)
    ensures StoreInv(StoreAt(s, es, n)) && id in StoreAt(s, es, n).requests
    ensures StoreAt(s, es, n).requests[id].earliest == s.requests[id].earliest
  {
    if n == 0 {
    } else {
      EarliestStays(s, es, id, n - 1);
      EarliestStaysOnce(s, es, id, n - 1);
    }
  }

  lemma NothingBeforeEarliest(t: State, es: seq<Event>, id: nat)
    requires StoreInv(t) && id in t.requests && t.requests[id].earliest.Some?
    requires forall i :: 0 <= i < |es| ==> !AsksIn(t, es, id, i)
    ensures id in After(t, es).requests
    ensures var e, q := t.requests[id].earliest.value, After(t, es).requests[id];
            (q.proposed.Some? ==> q.proposed.value >= e) && (q.runDate.Some? ==> q.runDate.value >= e)
  {
    EarliestStays(t, es, id, |es|);
    RestOfRun(t, es, |es|);
    assert RequestInv(After(t, es).requests[id]);
  }

  // --------------------------------------------------------- questionnaire again

  /** On every request a run can produce, the questionnaire and the readiness
      rule agree. */
  lemma ReachableReadiness(s: State, es: seq<Event>, id: nat)
    requires Initial(s) && id in After(s, es).requests
    ensures var r := After(s, es).requests[id];
            ReadyToProposeSchedule(r) <==>
              && UnaskedConditions(r)
              && forall p :: p in r.parties ==> Settled(NextQuestion(r, p.phone))
  {
    InitialInv(s);
    AfterKeeps(s, es);
    var r := After(s, es).requests[id];
    assert RequestInv(r);
    InvMakesApprovalsConsistent(r);
    QuestionnaireAgreesWithReadiness(r);
  }

  // ----------------------------------------------------------- approval table

  /** Without manual capacity changes: what is not approved asks for exactly
      one slot more, what is approved is already in the capacity. */
  predicate OneAhead(s: State) {
    forall k :: k in s.approvals ==>
      && k.0 in s.runs
      && if s.approvals[k] == Approved then k.1 <= s.runs[k.0].capacity else k.1 == s.runs[k.0].capacity + 1
  }

  /** Approving acts on one pending request for more, and never shrinks a run. */
  lemma ApprovingRaises(s: State, d: Option<Date>)
    requires StoreInv(s) && Resolve(s, d, true) != s
    ensures exists k :: k in s.approvals && s.approvals[k] == Pending && (d.None? || k.0 == d.value)
              && k.0 in s.runs && s.runs[k.0].capacity < k.1
              && Resolve(s, d, true).runs == s.runs[k.0 := s.runs[k.0].(capacity := k.1)]
              && Resolve(s, d, true).approvals == s.approvals[k := Approved]
  {
    var pending := PendingFor(s, d);
    OnlyOne(pending);
    var k :| k in pending;
  }

  lemma ApprovingAddsExactlyOne(s: State, asked: Option<Date>) returns (d: Date)
    requires StoreInv(s) && OneAhead(s) && Resolve(s, asked, true) != s
    ensures (asked.None? || asked == Some(d)) && d in s.runs
    ensures Resolve(s, asked, true).runs == s.runs[d := s.runs[d].(capacity := s.runs[d].capacity + 1)]
  {
    ApprovingRaises(s, asked);
    var k :| && k in s.approvals && s.approvals[k] == Pending && (asked.None? || k.0 == asked.value)
             && k.0 in s.runs && s.runs[k.0].capacity < k.1
             && Resolve(s, asked, true).runs == s.runs[k.0 := s.runs[k.0].(capacity := k.1)];
    d := k.0;
  }

  predicate SameTable(s: State, t: State) {
    t.runs == s.runs && t.approvals == s.approvals && t.standard == s.standard
  }

  lemma PreparedOneAhead(s: State, d: Date)
    requires OneAhead(s)
    ensures OneAhead(Prepared(s, d)) && d in Prepared(s, d).runs
  {}

  lemma AskForOneAhead(s: State, d: Date)
    requires OneAhead(s) && d in s.runs
    ensures OneAhead(AskFor(s, d, s.runs[d].capacity).0)
  {}

  lemma ProposeOneAhead(s: State, r: Request, now: Now)
    requires OneAhead(s)
    ensures OneAhead(Propose(s, r, now).0)
  {
    var d := ProposalDay(now, r.earliest);
    PreparedOneAhead(s, d);
    AskForOneAhead(Prepared(s, d), d);
  }

  lemma CoordinateOneAhead(s: State, r: Request, now: Now, allowed: bool, sameDay: bool)
    requires OneAhead(s)
    ensures OneAhead(Coordinate(s, r, now, allowed, sameDay).0)
  {
    if ReadyToCoordinate(r) {
      PreparedOneAhead(s, r.proposed.value);
      AskForOneAhead(Prepared(s, r.proposed.value), r.proposed.value);
    }
  }

  predicate TableKept(s: State, o: Outcome) {
    o.Ok? ==> SameTable(s, o.state)
  }

  lemma OpenKeepsTable(s: State, phone: Phone, cmd: Command, rd: Reading, time: int)
    requires cmd.Donate? || cmd.ReceiveFromDonor?
    ensures TableKept(s, Open(s, phone, cmd, rd, time))
  {
    var v := Opened(phone, cmd, rd, time);
    if v.Changed? { VerdictKeepsTable(s, v.request, rd); }
  }

  lemma VerdictKeepsTable(s: State, r: Request, rd: Reading)
    ensures SameTable(s, OpenVerdict(s, r, rd).state)
  {
    assert SameTable(s, Create(s, r));
  }

  lemma ExecuteKeepsTable(s: State, phone: Phone, cmd: Command, rd: Reading, now: Now, time: int)
    ensures TableKept(s, Execute(s, phone, cmd, rd, now, time))
  {
    if cmd.Donate? || cmd.ReceiveFromDonor? {
      OpenKeepsTable(s, phone, cmd, rd, time);
    } else if cmd.Interest? {
      assert TableKept(s, Claim(s, cmd.number, phone, rd));
    } else if rd.target.Some? && !cmd.AskStatus? && !cmd.Seek? {
      TargetedKeepsTable(s, rd.target.value, phone, cmd, rd, now, time);
    } else {
      assert TableKept(s, Borderline(s, phone, true)) && TableKept(s, Borderline(s, phone, false));
    }
  }

  lemma TargetedKeepsTable(s: State, id: nat, phone: Phone, cmd: Command, rd: Reading, now: Now, time: int)
    ensures TableKept(s, Targeted(s, id, phone, cmd, rd, now, time))
  {}

  lemma {:induction false} ExecuteAllKeepsTable(
    s: State, phone: Phone, cmds: seq<Planned>, now: Now, time: int, request: Option<nat>)
    ensures var o := ExecuteAll(s, phone, cmds, now, time, request); o.Ok? ==> SameTable(s, o.state)
    decreases |cmds|
  {
    if cmds == [] {
    } else {
      ExecuteKeepsTable(s, phone, cmds[0].0, cmds[0].1, now, time);
      var o := Execute(s, phone, cmds[0].0, cmds[0].1, now, time);
      if o.Ok? {
        ExecuteAllKeepsTable(o.state, phone, cmds[1..], now, time, if o.request.Some? then o.request else request);
      }
    }
  }

  lemma TailOneAhead(s: State, id: nat, now: Now, allowed: bool)
    requires OneAhead(s) && id in s.requests
    ensures OneAhead(Tail(s, id, now, allowed))
  {
    ProposeOneAhead(s, s.requests[id], now);
    var t := OfferDate(s, id, now);
    assert OneAhead(t);
    CoordinateOneAhead(t, t.requests[id], now, allowed, false);
  }

  lemma PlanOneAhead(s: State, phone: Phone, expected: map<nat, nat>, cmds: seq<Planned>,
                     now: Now, time: int, allowed: bool)
    requires OneAhead(s)
    ensures OneAhead(FinishPlan(s, phone, expected, cmds, now, time, allowed))
  {
    ExecuteAllKeepsTable(s, phone, cmds, now, time, None);
    var o := ExecuteAll(s, phone, cmds, now, time, None);
    if o.Ok? && o.request.Some? && o.request.value in o.state.requests {
      TailOneAhead(o.state, o.request.value, now, allowed);
    }
  }

  lemma RetryOneAhead(s: State, id: nat, now: Now, allowed: bool)
    requires OneAhead(s)
    ensures OneAhead(Retry(s, id, now, allowed))
  {
    if id in s.requests {
      ProposeOneAhead(s, s.requests[id], now);
      CoordinateOneAhead(s, s.requests[id], now, allowed, false);
    }
  }

  lemma AdminBookOneAhead(s: State, id: nat, version: nat, now: Now, allowed: bool, sameDay: bool)
    requires OneAhead(s)
    ensures OneAhead(AdminBook(s, id, version, now, allowed, sameDay))
  {
    if id in s.requests { CoordinateOneAhead(s, s.requests[id], now, allowed, sameDay); }
  }

  lemma ResolveOneAhead(s: State, d: Option<Date>, yes: bool)
    requires OneAhead(s) && StoreInv(s)
    ensures OneAhead(Resolve(s, d, yes))
  {
    if Resolve(s, d, yes) != s { OnlyOne(PendingFor(s, d)); }
  }

  lemma StepOneAhead(s: State, e: Event)
    requires OneAhead(s) && StoreInv(s) && !e.CapacitySet?
    ensures OneAhead(Step(s, e))
  {
    match e
    case PlanFinished(phone, expected, cmds, now, time, allowed) =>
      PlanOneAhead(s, phone, expected, cmds, now, time, allowed);
    case WaitlistTick(id, now, allowed) => RetryOneAhead(s, id, now, allowed);
    case AdminCoordinates(id, version, now, allowed, sameDay) =>
      AdminBookOneAhead(s, id, version, now, allowed, sameDay);
    case CapacityAnswered(asked, yes) => ResolveOneAhead(s, asked, yes);
    case _ =>
  }

  /** In a run without manual capacity changes each date has at most one
      approval that is not approved, and it asks for exactly one slot more
      than the run has. */
  lemma {:induction false} OneAheadAfter(s: State, es: seq<Event>)
    requires StoreInv(s) && OneAhead(s)
    requires forall i :: 0 <= i < |es| ==> !es[i].CapacitySet?
    ensures OneAhead(After(s, es))
    decreases |es|
  {
    if es == [] {
    } else {
      StepOneAhead(s, es[0]);
      StepKeeps(s, es[0]);
      OneAheadAfter(Step(s, es[0]), es[1..]);
    }
  }

  lemma AtMostOneOpenApproval(s: State, es: seq<Event>, a: (Date, int), b: (Date, int))
    requires Initial(s) && forall i :: 0 <= i < |es| ==> !es[i].CapacitySet?
    ensures var t := After(s, es);
            && a in t.approvals && b in t.approvals && a.0 == b.0
            && t.approvals[a] != Approved && t.approvals[b] != Approved
            ==> a == b && a.0 in t.runs && a.1 == t.runs[a.0].capacity + 1
  {
    InitialInv(s);
    OneAheadAfter(s, es);
  }

  /** With manual changes that shape is lost, but not its point: a pending
      approval still asks for more than the run has. */
  lemma PendingAsksForMore(s: State, es: seq<Event>, a: (Date, int))
    requires Initial(s)
    ensures var t := After(s, es);
            a in t.approvals && t.approvals[a] == Pending ==>
              a.0 in t.runs && t.runs[a.0].capacity < a.1 <= MAX_CAPACITY
  {
    InitialInv(s);
    AfterKeeps(s, es);
  }
}
