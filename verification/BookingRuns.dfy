/** The invariant of the whole store, kept by every transaction, and what it
    means over every run. */
module BookingRuns {
  import opened Types
  import opened Policies
  import opened Commands
  import opened Booking
  import opened Lifecycle

  // ---------------------------------------------------------------- invariant

  function CapacityOf(s: State, d: Date): int {
    if d in s.runs then s.runs[d].capacity else 0
  }

  predicate RunsInv(s: State) {
    && 1 <= s.standard <= DEFAULT_CAPACITY
    && forall d :: d in s.runs ==> Tuesday(d) && 1 <= s.runs[d].capacity <= MAX_CAPACITY
  }

  /** A pending approval always asks for more than the run has. */
  predicate ApprovalsInv(s: State) {
    forall k :: k in s.approvals ==>
      && k.0 in s.runs && k.1 <= MAX_CAPACITY
      && (s.approvals[k] == Pending ==> k.1 > s.runs[k.0].capacity)
  }

  ghost predicate WithinCapacity(s: State) {
    forall d :: |BookedOn(s, d)| <= CapacityOf(s, d)
  }

  predicate RequestsInv(s: State) {
    forall id :: id in s.requests ==> id <= s.last && RequestInv(s.requests[id])
  }

  ghost predicate StoreInv(s: State) {
    RunsInv(s) && ApprovalsInv(s) && WithinCapacity(s) && RequestsInv(s)
  }

  /** A new installation: the runs an operator prepared, and nothing else. */
  predicate Initial(s: State) {
    s.requests == map[] && s.approvals == map[] && RunsInv(s)
  }

  lemma InitialInv(s: State)
    requires Initial(s)
    ensures StoreInv(s)
  {
    assert forall d :: BookedOn(s, d) == {};
  }

  // ------------------------------------------------------------------- saving

  lemma BookedAfterSave(s: State, id: nat, r: Request, d: Date)
    ensures BookedOn(Save(s, id, r), d) == if Books(r, d) then BookedOn(s, d) + {id} else BookedOn(s, d) - {id}
  {}

  /** A save keeps the store when it books nothing that was not booked. */
  lemma SaveKeeps(s: State, id: nat, r: Request)
    requires StoreInv(s) && id <= s.last && RequestInv(Stored(r))
    requires IsBooked(r) ==> id in s.requests && IsBooked(s.requests[id]) && r.runDate == s.requests[id].runDate
    ensures StoreInv(Save(s, id, r))
  {
    forall d ensures |BookedOn(Save(s, id, r), d)| <= CapacityOf(s, d) {
      BookedAfterSave(s, id, r, d);
      assert Books(r, d) ==> id in BookedOn(s, d);
      assert BookedOn(Save(s, id, r), d) <= BookedOn(s, d);
      SubsetSize(BookedOn(Save(s, id, r), d), BookedOn(s, d));
    }
  }

  /** What may be saved as id: a sound request whose booking, if it is booked,
      is there already or has a free slot. */
  ghost predicate MaySave(s: State, id: nat, r: Request) {
    && id <= s.last && RequestInv(Stored(r))
    && (IsBooked(r) ==>
          || id in BookedOn(s, r.runDate.value)
          || |BookedOn(s, r.runDate.value)| < CapacityOf(s, r.runDate.value))
  }

  lemma SaveKeepsExactly(s: State, id: nat, r: Request)
    requires StoreInv(s)
    ensures StoreInv(Save(s, id, r)) <==> MaySave(s, id, r)
  {
    var t := Save(s, id, r);
    assert id in t.requests && t.requests[id] == Stored(r);
    if RequestInv(Stored(r)) && IsBooked(r) {
      var d := r.runDate.value;
      BookedAfterSave(s, id, r, d);
      if id in BookedOn(s, d) {
        if id <= s.last { SaveKeeps(s, id, r); }
      } else {
        assert |BookedOn(t, d)| == |BookedOn(s, d)| + 1;
        if MaySave(s, id, r) { SaveBooking(s, id, r); }
      }
    } else if MaySave(s, id, r) {
      SaveKeeps(s, id, r);
    }
  }

  lemma SubsetSize<T>(a: set<T>, b: set<T>)
    requires a <= b
    ensures |a| <= |b|
  {
    assert |b| == |a| + |b - a| by { assert b == a + (b - a); }
  }

  /** A booking needs one free slot on its date. */
  lemma SaveBooking(s: State, id: nat, r: Request)
    requires StoreInv(s) && id <= s.last && RequestInv(Stored(r)) && r.runDate.Some?
    requires |BookedOn(s, r.runDate.value)| < CapacityOf(s, r.runDate.value)
    ensures StoreInv(Save(s, id, r))
  {
    forall d ensures |BookedOn(Save(s, id, r), d)| <= CapacityOf(s, d) {
      BookedAfterSave(s, id, r, d);
      if Books(r, d) {
        OneMoreSize(BookedOn(s, d), id);
      } else {
        SubsetSize(BookedOn(s, d) - {id}, BookedOn(s, d));
      }
    }
  }

  lemma OneMoreSize<T>(a: set<T>, x: T)
    ensures |a + {x}| <= |a| + 1
  {
    if x in a { assert a + {x} == a; }
  }

  // ----------------------------------------------------------------- capacity

  lemma SameBooked(s: State, t: State)
    requires s.requests == t.requests
    ensures forall d :: BookedOn(s, d) == BookedOn(t, d)
  {}

  lemma PreparedKeeps(s: State, d: Date)
    requires StoreInv(s) && Tuesday(d)
    ensures StoreInv(Prepared(s, d)) && d in Prepared(s, d).runs
    ensures Prepared(s, d).requests == s.requests
  {
    SameBooked(s, Prepared(s, d));
  }

  lemma AskForKeeps(s: State, d: Date, capacity: int)
    requires StoreInv(s) && d in s.runs && capacity == s.runs[d].capacity
    ensures StoreInv(AskFor(s, d, capacity).0)
    ensures var t := AskFor(s, d, capacity).0; t.requests == s.requests && t.runs == s.runs
  {
    SameBooked(s, AskFor(s, d, capacity).0);
  }

  lemma ProposeKeeps(s: State, r: Request, now: Now)
    requires StoreInv(s)
    ensures var (t, date) := Propose(s, r, now);
            && StoreInv(t) && t.requests == s.requests && t.last == s.last
            && (date.Some? ==> Tuesday(date.value) && date.value == ProposalDay(now, r.earliest))
  {
    ProposalDayIsLeast(now, r.earliest);
    var d := ProposalDay(now, r.earliest);
    PreparedKeeps(s, d);
    AskForKeeps(Prepared(s, d), d, Prepared(s, d).runs[d].capacity);
  }

  lemma TakeSlotKeeps(s: State, id: nat, d: Date)
    requires StoreInv(s) && d in s.runs && id in s.requests
    requires ReadyToCoordinate(s.requests[id]) && s.requests[id].proposed == Some(d)
    ensures var (t, r, result) := TakeSlot(s, s.requests[id], d);
            StoreInv(t) && t.requests == s.requests && t.last == s.last && StoreInv(Save(t, id, r))
  {
    var q := s.requests[id];
    assert RequestInv(q);
    var (t, r, result) := TakeSlot(s, q, d);
    AskForKeeps(s, d, s.runs[d].capacity);
    if result.Booked? {
      BookKeeps(q, d);
      SaveBooking(s, id, r);
    } else {
      StatusChangeKeeps(q, r);
      SaveKeeps(t, id, r);
    }
  }

  lemma CoordinateKeeps(s: State, id: nat, now: Now, allowed: bool, sameDay: bool)
    requires StoreInv(s) && id in s.requests
    ensures var (t, r, result) := Coordinate(s, s.requests[id], now, allowed, sameDay);
            && StoreInv(t) && t.requests == s.requests && t.last == s.last
            && (result.Full? || result.CapacityDenied? || result.Booked? ==> StoreInv(Save(t, id, r)))
  {
    var q := s.requests[id];
    assert RequestInv(q);
    if ReadyToCoordinate(q) {
      PreparedKeeps(s, q.proposed.value);
      TakeSlotKeeps(Prepared(s, q.proposed.value), id, q.proposed.value);
    }
  }

  lemma ResolveKeeps(s: State, d: Option<Date>, yes: bool)
    requires StoreInv(s)
    ensures StoreInv(Resolve(s, d, yes))
  {
    var pending := PendingFor(s, d);
    if |pending| == 1 {
      OnlyOne(pending);
      var k :| k in pending;
      var t := Resolve(s, d, yes);
      SameBooked(s, t);
      forall j | j in t.approvals && t.approvals[j] == Pending
        ensures j.0 in t.runs && j.1 > t.runs[j.0].capacity
      {
        if j.0 == k.0 { assert j in pending; }
      }
    }
  }

  lemma SetCapacityKeeps(s: State, d: Date, capacity: int)
    requires StoreInv(s)
    ensures StoreInv(SetCapacity(s, d, capacity))
  {
    var t := SetCapacity(s, d, capacity);
    SameBooked(s, t);
    SubsetSize(BookedOn(s, d), BookedOn(s, d) + HeldOn(s, d));
  }

  // -------------------------------------------------------- running a plan

  lemma TouchKeeps(s: State, id: nat, status: Status)
    requires StoreInv(s) && id in s.requests
    requires status == s.requests[id].status || (!(status in {Coordinated, Closed, WaitingCapacity}))
    ensures StoreInv(Save(s, id, s.requests[id].(status := status)))
  {
    var r := s.requests[id];
    assert RequestInv(r);
    StatusChangeKeeps(r, r.(status := status));
    SaveKeeps(s, id, r.(status := status));
  }

  lemma CounterKeeps(s: State)
    requires StoreInv(s)
    ensures StoreInv(s.(last := s.last + 1))
  {
    SameBooked(s, s.(last := s.last + 1));
  }

  lemma CreateKeeps(s: State, r: Request)
    requires StoreInv(s) && RequestInv(Stored(r)) && !IsBooked(r)
    ensures var t := Create(s, r);
            StoreInv(t) && t.last == s.last + 1 && t.last in t.requests && t.requests[t.last].status == r.status
  {
    var id := s.last + 1;
    CounterKeeps(s);
    var s1 := Save(s.(last := id), id, r);
    SaveKeeps(s.(last := id), id, r);
    TouchKeeps(s1, id, s1.requests[id].status);
  }

  /** What an executed command owes: a good store, and its request in it. */
  ghost predicate GoodOutcome(o: Outcome) {
    o.Ok? ==> StoreInv(o.state) && (o.request.Some? ==> o.request.value in o.state.requests)
  }

  lemma TargetedKeeps(s: State, id: nat, phone: Phone, cmd: Command, rd: Reading, now: Now, time: int)
    requires StoreInv(s)
    ensures GoodOutcome(Targeted(s, id, phone, cmd, rd, now, time))
  {
    if id in s.requests && Visible(s.requests[id]) {
      var r := s.requests[id];
      assert RequestInv(r);
      var v := Applied(r, phone, cmd, rd, now, time);
      if v.Changed? {
        AppliedKeeps(r, phone, cmd, rd, now, time);
        BookedIsFrozen(r, phone, cmd, rd, now, time);
        SaveKeeps(s, id, v.request);
      }
    }
  }

  lemma ClaimStoreKeeps(s: State, number: nat, phone: Phone, rd: Reading)
    requires StoreInv(s)
    ensures GoodOutcome(Claim(s, number, phone, rd))
  {
    if number in s.requests && Offered(s.requests[number], phone) {
      var r := s.requests[number];
      assert RequestInv(r);
      ClaimKeeps(r, phone, rd);
      if Claimed(r, phone, rd).Changed? { SaveKeeps(s, number, Claimed(r, phone, rd).request); }
    }
  }

  lemma ExecuteKeeps(s: State, phone: Phone, cmd: Command, rd: Reading, now: Now, time: int)
    requires StoreInv(s)
    ensures GoodOutcome(Execute(s, phone, cmd, rd, now, time))
  {
    if cmd.Donate? || cmd.ReceiveFromDonor? {
      OpenKeeps(s, phone, cmd, rd, time);
    } else if cmd.Interest? {
      ClaimStoreKeeps(s, cmd.number, phone, rd);
    } else if rd.target.Some? {
      TargetedKeeps(s, rd.target.value, phone, cmd, rd, now, time);
    } else if cmd.Escalate? && cmd.borderline {
      BorderlineKeeps(s, phone);
    }
  }

  lemma OpenKeeps(s: State, phone: Phone, cmd: Command, rd: Reading, time: int)
    requires StoreInv(s) && (cmd.Donate? || cmd.ReceiveFromDonor?)
    ensures GoodOutcome(Open(s, phone, cmd, rd, time))
  {
    var v := Opened(phone, cmd, rd, time);
    if v.Changed? {
      OpenedKeeps(phone, cmd, rd, time);
      if rd.duplicate.Some? && rd.duplicate.value in s.requests && !rd.newRequestWords {
        TouchKeeps(s, rd.duplicate.value, s.requests[rd.duplicate.value].status);
      } else {
        CreateKeeps(s, v.request);
        var t := Create(s, v.request);
        TouchKeeps(t, t.last, t.requests[t.last].status);
      }
    }
  }

  lemma BorderlineKeeps(s: State, phone: Phone)
    requires StoreInv(s)
    ensures GoodOutcome(Borderline(s, phone, true))
  {
    var r := Request(0, Collecting, Donation, false, false, [], [NewParty(Donor, phone, false, 0)], [],
                     None, None, None, map[]);
    CreateKeeps(s, r);
    var t := Create(s, r);
    TouchKeeps(t, t.last, Human);
  }

  lemma {:induction false} ExecuteAllKeeps(
    s: State, phone: Phone, cmds: seq<Planned>, now: Now, time: int, request: Option<nat>)
    requires StoreInv(s)
    ensures var o := ExecuteAll(s, phone, cmds, now, time, request); o.Ok? ==> StoreInv(o.state)
    decreases |cmds|
  {
    if cmds == [] {
    } else {
      ExecuteKeeps(s, phone, cmds[0].0, cmds[0].1, now, time);
      var o := Execute(s, phone, cmds[0].0, cmds[0].1, now, time);
      if o.Ok? {
        ExecuteAllKeeps(o.state, phone, cmds[1..], now, time, if o.request.Some? then o.request else request);
      }
    }
  }

  lemma OfferDateKeeps(s: State, id: nat, now: Now)
    requires StoreInv(s) && id in s.requests
    ensures StoreInv(OfferDate(s, id, now)) && id in OfferDate(s, id, now).requests
  {
    var r := s.requests[id];
    assert RequestInv(r);
    ProposeKeeps(s, r, now);
    var (t, date) := Propose(s, r, now);
    if ReadyToProposeSchedule(r) {
      if date.None? {
        StatusChangeKeeps(r, r.(status := WaitingCapacity));
        SaveKeeps(t, id, r.(status := WaitingCapacity));
      } else if r.proposed.None? || r.proposed.value < NextTuesday(now) {
        ProposalDayIsLeast(now, r.earliest);
        OfferKeeps(r, date.value);
        SaveKeeps(t, id, r.(proposed := date, status := AwaitingApproval, parties := ClearedDates(r.parties)));
      }
    }
  }

  lemma FinishPlanKeeps(s: State, phone: Phone, expected: map<nat, nat>, cmds: seq<Planned>,
                        now: Now, time: int, allowed: bool)
    requires StoreInv(s)
    ensures StoreInv(FinishPlan(s, phone, expected, cmds, now, time, allowed))
  {
    ExecuteAllKeeps(s, phone, cmds, now, time, None);
    var o := ExecuteAll(s, phone, cmds, now, time, None);
    if o.Ok? && o.request.Some? && o.request.value in o.state.requests {
      OfferDateKeeps(o.state, o.request.value, now);
      CoordinateKeeps(OfferDate(o.state, o.request.value, now), o.request.value, now, allowed, false);
    }
  }

  // --------------------------------------------------- the other transactions

  lemma AddPhotoKeeps(s: State, id: nat, phone: Phone, photo: string)
    requires StoreInv(s)
    ensures StoreInv(AddPhoto(s, id, phone, photo))
  {
    var t := AddPhoto(s, id, phone, photo);
    if t != s {
      var r := s.requests[id];
      assert RequestInv(r);
      var q := r.(photos := if photo in r.photos then r.photos else r.photos + [photo],
                  status := if |r.parties| == 1 then Available else r.status);
      StatusChangeKeeps(r, q);
      SaveKeeps(s, id, q);
    }
  }

  lemma RetryKeeps(s: State, id: nat, now: Now, allowed: bool)
    requires StoreInv(s)
    ensures StoreInv(Retry(s, id, now, allowed))
  {
    if id in s.requests && s.requests[id].status == WaitingCapacity {
      var r := s.requests[id];
      assert RequestInv(r);
      ProposeKeeps(s, r, now);
      CoordinateKeeps(s, id, now, allowed, false);
      var (t, date) := Propose(s, r, now);
      if r.proposed.None? && date.Some? {
        ProposalDayIsLeast(now, r.earliest);
        OfferKeeps(r, date.value);
        SaveKeeps(t, id, r.(proposed := date, status := AwaitingApproval, parties := ClearedDates(r.parties)));
      }
    }
  }

  lemma AdminBookKeeps(s: State, id: nat, version: nat, now: Now, allowed: bool, sameDay: bool)
    requires StoreInv(s)
    ensures StoreInv(AdminBook(s, id, version, now, allowed, sameDay))
  {
    if id in s.requests { CoordinateKeeps(s, id, now, allowed, sameDay); }
  }

  lemma ResumeKeeps(s: State, id: nat, version: nat)
    requires StoreInv(s)
    ensures StoreInv(AdminResume(s, id, version))
  {
    if id in s.requests { TouchKeeps(s, id, Collecting); }
  }

  lemma CompleteKeeps(s: State, id: nat, version: nat)
    requires StoreInv(s)
    ensures StoreInv(AdminComplete(s, id, version))
  {
    if id in s.requests && s.requests[id].status == Coordinated {
      var r := s.requests[id];
      assert RequestInv(r);
      StatusChangeKeeps(r, r.(status := Closed));
      SaveKeeps(s, id, r.(status := Closed));
    }
  }

  lemma StepKeeps(s: State, e: Event)
    requires StoreInv(s)
    ensures StoreInv(Step(s, e))
  {
    match e
    case PlanFinished(phone, expected, cmds, now, time, allowed) =>
      FinishPlanKeeps(s, phone, expected, cmds, now, time, allowed);
    case OutsideTown(id) => if id in s.requests { TouchKeeps(s, id, Status.Rejected); }
    case PhotoReceived(id, phone, photo) => AddPhotoKeeps(s, id, phone, photo);
    case TurnFailed(id) => if id in s.requests { TouchKeeps(s, id, Human); }
    case WaitlistTick(id, now, allowed) => RetryKeeps(s, id, now, allowed);
    case AdminCoordinates(id, version, now, allowed, sameDay) => AdminBookKeeps(s, id, version, now, allowed, sameDay);
    case AdminCompletes(id, version) => CompleteKeeps(s, id, version);
    case AdminResumes(id, version) => ResumeKeeps(s, id, version);
    case CapacitySet(date, capacity) => SetCapacityKeeps(s, date, capacity);
    case CapacityAnswered(asked, yes) => ResolveKeeps(s, asked, yes);
  }

  /** Every reachable store satisfies the invariant. */
  lemma {:induction false} AfterKeeps(s: State, es: seq<Event>)
    requires StoreInv(s)
    ensures StoreInv(After(s, es))
    decreases |es|
  {
    if es == [] {
    } else {
      StepKeeps(s, es[0]);
      AfterKeeps(Step(s, es[0]), es[1..]);
    }
  }
}
