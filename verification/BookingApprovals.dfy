/** Extra slots: when one is asked for, what the admin's answer changes, and that
    an approved slot is used. */
module BookingApprovals {
  import opened Types
  import opened Policies
  import opened Commands
  import opened Booking
  import opened BookingRuns
  import opened BookingTheorems
  import opened BookingDates

  // ------------------------------------------------------------------- asking

  /** One slot more may be asked for: the run is booked out below the limit and
      nobody has asked yet. */
  predicate MayAsk(s: State, d: Date) {
    BookedOut(s, d) && RunOf(s, d).capacity < MAX_CAPACITY && (d, RunOf(s, d).capacity + 1) !in s.approvals
  }

  function WithAsk(s: State, d: Date): map<(Date, int), Decision> {
    s.approvals[(d, RunOf(s, d).capacity + 1) := Pending]
  }

  /** A booking that finds its run booked out asks, once. */
  lemma CoordinateAsksExactly(s: State, r: Request, d: Date, now: Now, allowed: bool, sameDay: bool)
    requires r.proposed == Some(d)
    ensures var asks := Agreed(r, d) && allowed && (OnItsDay(d, now) ==> sameDay) && MayAsk(s, d);
            Coordinate(s, r, now, allowed, sameDay).0.approvals == if asks then WithAsk(s, d) else s.approvals
  {
    NextTuesdayMeaning(now);
    SameBooked(s, Prepared(s, d));
  }

  /** And so does an offer. */
  lemma ProposeAsksExactly(s: State, r: Request, now: Now)
    ensures var d := ProposalDay(now, r.earliest);
            var asks := !OnItsDay(d, now) && MayAsk(s, d);
            Propose(s, r, now).0.approvals == if asks then WithAsk(s, d) else s.approvals
  {
    NextTuesdayMeaning(now);
    SameBooked(s, Prepared(s, ProposalDay(now, r.earliest)));
  }

  // ---------------------------------------------------------------- answering

  /** The admin's answer may mean request k for a slot. */
  predicate Meant(s: State, asked: Option<Date>, k: (Date, int)) {
    k in s.approvals && s.approvals[k] == Pending && (asked.Some? ==> asked.value == k.0)
  }

  ghost predicate OneMeant(s: State, asked: Option<Date>, k: (Date, int)) {
    Meant(s, asked, k) && forall j :: Meant(s, asked, j) ==> j == k
  }

  lemma PendingIsMeant(s: State, asked: Option<Date>, k: (Date, int))
    ensures k in PendingFor(s, asked) <==> Meant(s, asked, k)
  {}

  /** A no denies the one request that is meant; a yes approves it and sets the
      capacity, when the run is open. */
  lemma AnswersExactly(s: State, asked: Option<Date>, yes: bool, k: (Date, int))
    requires OneMeant(s, asked, k)
    ensures Resolve(s, asked, false) == s.(approvals := s.approvals[k := Denied])
    ensures var opens := k.0 in s.runs && s.runs[k.0].open && k.1 <= MAX_CAPACITY;
            Resolve(s, asked, true) ==
              if opens then s.(runs := s.runs[k.0 := Run(k.1, true)], approvals := s.approvals[k := Approved]) else s
  {
    assert PendingFor(s, asked) == {k} by {
      forall j ensures j in PendingFor(s, asked) <==> j == k { PendingIsMeant(s, asked, j); }
    }
  }

  /** An answer that means none of them, or more than one, does nothing. */
  lemma UnclearAnswer(s: State, asked: Option<Date>, yes: bool)
    requires forall k :: !OneMeant(s, asked, k)
    ensures Resolve(s, asked, yes) == s
  {
    var pending := PendingFor(s, asked);
    if |pending| == 1 {
      OnlyOne(pending);
      var k :| k in pending;
      PendingIsMeant(s, asked, k);
      forall j | Meant(s, asked, j) ensures j == k { PendingIsMeant(s, asked, j); }
      assert OneMeant(s, asked, k);
    }
  }

  /** The admin's own change of a capacity takes effect exactly when it is in
      range and covers what is booked and offered; it keeps the run's status and
      settles the requests it covers. */
  lemma ChangesCapacityExactly(s: State, d: Date, capacity: int)
    ensures var t := SetCapacity(s, d, capacity);
            var fits := Tuesday(d) && 1 <= capacity <= MAX_CAPACITY && |BookedOn(s, d) + HeldOn(s, d)| <= capacity;
            && t.requests == s.requests
            && (!fits ==> t == s)
            && (fits ==> d in t.runs && RunOf(t, d) == RunOf(s, d).(capacity := capacity))
            && (forall e :: e != d ==> RunOf(t, e) == RunOf(s, e))
            && t.approvals.Keys == s.approvals.Keys
            && forall k :: k in s.approvals ==>
                 t.approvals[k] == if fits && k.0 == d && s.approvals[k] == Pending && k.1 <= capacity then Approved
                                   else s.approvals[k]
  {}

  // -------------------------------------------------------------- answers stand

  /** No request for a slot is lost, and no answer to one changes. */
  predicate AnswersStand(s: State, t: State) {
    forall k :: k in s.approvals ==> k in t.approvals && (s.approvals[k] == Pending || t.approvals[k] == s.approvals[k])
  }

  lemma AskAnswers(s: State, d: Date, capacity: int)
    ensures AnswersStand(s, AskFor(s, d, capacity).0)
  {}

  lemma ProposeAnswers(s: State, r: Request, now: Now)
    ensures AnswersStand(s, Propose(s, r, now).0)
  {
    var t := Prepared(s, ProposalDay(now, r.earliest));
    AskAnswers(t, ProposalDay(now, r.earliest), t.runs[ProposalDay(now, r.earliest)].capacity);
  }

  lemma CoordinateAnswers(s: State, r: Request, now: Now, allowed: bool, sameDay: bool)
    ensures AnswersStand(s, Coordinate(s, r, now, allowed, sameDay).0)
  {
    if r.proposed.Some? {
      var t := Prepared(s, r.proposed.value);
      AskAnswers(t, r.proposed.value, t.runs[r.proposed.value].capacity);
    }
  }

  lemma OfferAnswers(s: State, id: nat, now: Now)
    requires id in s.requests
    ensures AnswersStand(s, OfferDate(s, id, now))
  {
    ProposeAnswers(s, s.requests[id], now);
  }

  lemma BookAnswers(s: State, id: nat, now: Now, allowed: bool)
    requires id in s.requests
    ensures AnswersStand(s, BookDate(s, id, now, allowed))
  {
    CoordinateAnswers(s, s.requests[id], now, allowed, false);
  }

  lemma StandsOn(s: State, t: State, u: State)
    requires AnswersStand(s, t) && AnswersStand(t, u)
    ensures AnswersStand(s, u)
  {}

  lemma TailAnswers(s: State, id: nat, now: Now, allowed: bool)
    requires id in s.requests
    ensures AnswersStand(s, Tail(s, id, now, allowed))
  {
    OfferAnswers(s, id, now);
    BookAnswers(OfferDate(s, id, now), id, now, allowed);
    StandsOn(s, OfferDate(s, id, now), Tail(s, id, now, allowed));
  }

  lemma RetryAnswers(s: State, id: nat, now: Now, allowed: bool)
    ensures AnswersStand(s, Retry(s, id, now, allowed))
  {
    if id in s.requests {
      ProposeAnswers(s, s.requests[id], now);
      CoordinateAnswers(s, s.requests[id], now, allowed, false);
    }
  }

  lemma AdminAnswers(s: State, id: nat, version: nat, now: Now, allowed: bool, sameDay: bool)
    ensures AnswersStand(s, AdminBook(s, id, version, now, allowed, sameDay))
  {
    if id in s.requests { CoordinateAnswers(s, s.requests[id], now, allowed, sameDay); }
  }

  lemma PlanAnswers(s: State, phone: Phone, expected: map<nat, nat>, cmds: seq<Planned>,
                    now: Now, time: int, allowed: bool)
    ensures AnswersStand(s, FinishPlan(s, phone, expected, cmds, now, time, allowed))
  {
    ExecuteAllKeepsTable(s, phone, cmds, now, time, None);
    var o := ExecuteAll(s, phone, cmds, now, time, None);
    if o.Ok? && o.request.Some? && o.request.value in o.state.requests {
      TailAnswers(o.state, o.request.value, now, allowed);
    }
  }

  lemma ResolveAnswers(s: State, asked: Option<Date>, yes: bool)
    ensures AnswersStand(s, Resolve(s, asked, yes))
  {
    if Resolve(s, asked, yes) != s { OnlyOne(PendingFor(s, asked)); }
  }

  lemma StepAnswers(s: State, e: Event)
    ensures AnswersStand(s, Step(s, e))
  {
    match e
    case PlanFinished(phone, expected, cmds, now, time, allowed) =>
      PlanAnswers(s, phone, expected, cmds, now, time, allowed);
    case CapacityAnswered(asked, yes) => ResolveAnswers(s, asked, yes);
    case WaitlistTick(id, now, allowed) => RetryAnswers(s, id, now, allowed);
    case AdminCoordinates(id, version, now, allowed, sameDay) =>
      AdminAnswers(s, id, version, now, allowed, sameDay);
    case _ =>
  }

  /** Over every run: a slot once denied is never asked for again, and one once
      approved stays approved. */
  lemma {:induction false} AnswersAreFinal(s: State, es: seq<Event>, k: (Date, int))
    requires k in s.approvals && s.approvals[k] != Pending
    ensures k in After(s, es).approvals && After(s, es).approvals[k] == s.approvals[k]
    decreases |es|
  {
    if es == [] {
    } else {
      StepAnswers(s, es[0]);
      AnswersAreFinal(Step(s, es[0]), es[1..], k);
    }
  }

  // ------------------------------------------------------------- a slot is used

  /** The waitlist comes, the admin answers, and the waitlist comes again. */
  function AskAnswerAndBook(id: nat, d: Date, now: Now, yes: bool): seq<Event> {
    [WaitlistTick(id, now, true), CapacityAnswered(Some(d), yes), WaitlistTick(id, now, true)]
  }

  /** A request that waits for a date both sides agreed to, whose run is booked
      out and whose next slot may still be had. */
  predicate WaitsForSlot(s: State, id: nat, d: Date) {
    && id in s.requests && s.requests[id].status == WaitingCapacity && Agreed(s.requests[id], d)
    && BookedOut(s, d) && RunOf(s, d).capacity < MAX_CAPACITY && !NextSlotDenied(s, d)
  }

  lemma TickAsks(s: State, id: nat, d: Date, now: Now)
    requires StoreInv(s) && WaitsForSlot(s, id, d) && !OnItsDay(d, now)
    ensures var t := Retry(s, id, now, true);
            && t.requests == s.requests && RunOf(t, d) == RunOf(s, d)
            && t.approvals == if MayAsk(s, d) then WithAsk(s, d) else s.approvals
  {
    var r := s.requests[id];
    CoordinatesExactly(s, r, d, now, true, false);
    CoordinateLeaves(s, r, now, true, false);
    CoordinateAsksExactly(s, r, d, now, true, false);
  }

  lemma AsksForSlot(s: State, id: nat, d: Date, now: Now)
    requires StoreInv(s) && OneAhead(s) && WaitsForSlot(s, id, d) && !OnItsDay(d, now)
    ensures var t := Retry(s, id, now, true);
            && StoreInv(t) && t.requests == s.requests && RunOf(t, d) == RunOf(s, d) && d in t.runs
            && OneMeant(t, Some(d), (d, RunOf(s, d).capacity + 1))
  {
    RetryKeeps(s, id, now, true);
    RetryOneAhead(s, id, now, true);
    TickAsks(s, id, d, now);
    OnlyNextIsMeant(s, Retry(s, id, now, true), d);
  }

  lemma OnlyNextIsMeant(s: State, t: State, d: Date)
    requires OneAhead(s) && OneAhead(t) && StoreInv(s) && BookedOut(s, d) && RunOf(s, d).capacity < MAX_CAPACITY
    requires !NextSlotDenied(s, d) && RunOf(t, d) == RunOf(s, d)
    requires t.approvals == if MayAsk(s, d) then WithAsk(s, d) else s.approvals
    ensures d in t.runs && OneMeant(t, Some(d), (d, RunOf(s, d).capacity + 1))
  {
    var k := (d, RunOf(s, d).capacity + 1);
    assert k in t.approvals && t.approvals[k] == Pending;
    forall j | Meant(t, Some(d), j) ensures j == k { assert t.approvals[j] == Pending; }
  }

  lemma WaitingIsUnbooked(s: State, id: nat, d: Date)
    requires StoreInv(s) && BookedOut(s, d)
    ensures |BookedOn(s, d)| == RunOf(s, d).capacity
  {
    assert |BookedOn(s, d)| <= CapacityOf(s, d);
  }

  lemma AnswerDecides(t: State, id: nat, d: Date, now: Now, yes: bool)
    requires StoreInv(t) && d in t.runs && id in t.requests && t.requests[id].status == WaitingCapacity
    requires Agreed(t.requests[id], d) && BookedOut(t, d) && RunOf(t, d).capacity < MAX_CAPACITY
    requires OneMeant(t, Some(d), (d, RunOf(t, d).capacity + 1)) && !OnItsDay(d, now)
    ensures BookedFor(Retry(Resolve(t, Some(d), yes), id, now, true), id, d) <==> yes
  {
    var u := Resolve(t, Some(d), yes);
    AnswersExactly(t, Some(d), yes, (d, RunOf(t, d).capacity + 1));
    ResolveKeeps(t, Some(d), yes);
    SameBooked(t, u);
    WaitingIsUnbooked(t, id, d);
    WaitlistBooksExactly(u, id, d, now, true);
  }

  lemma ThreeSteps(s: State, a: Event, b: Event, c: Event)
    ensures After(s, [a, b, c]) == Step(Step(Step(s, a), b), c)
  {
    assert [a, b, c][1..] == [b, c] && [b, c][1..] == [c];
    assert After(Step(s, a), [b, c]) == After(Step(Step(s, a), b), [c]);
    assert After(Step(Step(s, a), b), [c]) == After(Step(Step(Step(s, a), b), c), []);
  }

  lemma AskAnswerAndBookIs(s: State, id: nat, d: Date, now: Now, yes: bool)
    ensures After(s, AskAnswerAndBook(id, d, now, yes))
            == Retry(Resolve(Retry(s, id, now, true), Some(d), yes), id, now, true)
  {
    var tick := WaitlistTick(id, now, true);
    ThreeSteps(s, tick, CapacityAnswered(Some(d), yes), tick);
  }

  lemma AskedAndAnswered(s: State, id: nat, d: Date, now: Now, yes: bool)
    requires StoreInv(s) && OneAhead(s) && WaitsForSlot(s, id, d) && !OnItsDay(d, now)
    ensures BookedFor(Retry(Resolve(Retry(s, id, now, true), Some(d), yes), id, now, true), id, d) <==> yes
  {
    AsksForSlot(s, id, d, now);
    SameBooked(s, Retry(s, id, now, true));
    AnswerDecides(Retry(s, id, now, true), id, d, now, yes);
  }

  /** The slot is asked for, and the admin's answer decides: after a yes the
      request is booked, after a no it is not. */
  lemma ApprovedSlotIsUsed(s: State, id: nat, d: Date, now: Now, yes: bool)
    requires StoreInv(s) && OneAhead(s) && WaitsForSlot(s, id, d) && !OnItsDay(d, now)
    ensures BookedFor(After(s, AskAnswerAndBook(id, d, now, yes)), id, d) <==> yes
  {
    AskedAndAnswered(s, id, d, now, yes);
    AskAnswerAndBookIs(s, id, d, now, yes);
  }
}
