/** The booking store as the program runs it: an object whose methods update
    the rows in place, the command loop of finish with its savepoint, and the
    waitlist loop. Each method is proved to leave exactly the store that modules
    Booking and PlanGate describe, so everything proved there holds of the
    running object, and each transaction to keep the store invariant. */
module BookingService {
  import opened Types
  import opened Policies
  import Commands
  import CommandHandler
  import Booking
  import BookingRuns
  import Lifecycle
  import PlanGate
  import Reorder

  /** The results of coordinate after which finish saves the request. */
  predicate SavesAfter(result: Booking.Coordination) {
    result.Full? || result.CapacityDenied? || result.Booked?
  }

  predicate NewlySound(r: Request) {
    Lifecycle.RequestInv(Booking.Stored(r)) && !Lifecycle.IsBooked(r)
  }

  /** A sound store, in which the request may be saved. */
  ghost predicate CoordinatedWell(c: (Booking.State, Request, Booking.Coordination), id: nat) {
    BookingRuns.StoreInv(c.0) && (SavesAfter(c.2) ==> BookingRuns.MaySave(c.0, id, c.1))
  }

  class Store {
    const standard: int
    var last: nat
    var requests: map<nat, Request>
    var runs: map<Date, Booking.Run>
    var approvals: map<(Date, int), Booking.Decision>

    function Value(): Booking.State
      reads this
    {
      Booking.State(standard, last, requests, runs, approvals)
    }

    /** Every reachable value keeps the store invariant (BookingRuns.AfterKeeps). */
    constructor (standard: int, prepared: map<Date, Booking.Run>)
      ensures Value() == Booking.State(standard, 0, map[], prepared, map[])
      ensures BookingRuns.RunsInv(Value()) ==> BookingRuns.StoreInv(Value())
    {
      this.standard := standard;
      last := 0;
      requests := map[];
      runs := prepared;
      approvals := map[];
      new;
      if BookingRuns.RunsInv(Value()) { BookingRuns.InitialInv(Value()); }
    }

    method Save(id: nat, r: Request)
      modifies this
      ensures Value() == Booking.Save(old(Value()), id, r)
      ensures old(BookingRuns.StoreInv(Value())) ==>
                (BookingRuns.StoreInv(Value()) <==> old(BookingRuns.MaySave(Value(), id, r)))
    {
      SaveKeeps(id, r);
      requests := requests[id := r.(version := r.version + 1, parties := Booking.ByRole(r.parties))];
    }

    // --------------------------------------------------------------- capacity

    method PrepareTransportRun(d: Date)
      modifies this
      ensures Value() == Booking.Prepared(old(Value()), d)
      ensures old(BookingRuns.StoreInv(Value())) && Tuesday(d) ==> BookingRuns.StoreInv(Value()) && d in runs
    {
      if BookingRuns.StoreInv(Value()) && Tuesday(d) { BookingRuns.PreparedKeeps(Value(), d); }
      if d !in runs { runs := runs[d := Booking.Run(standard, true)]; }
    }

    method AskForCapacityApproval(d: Date, capacity: int) returns (ask: Booking.Ask)
      modifies this
      ensures (Value(), ask) == Booking.AskFor(old(Value()), d, capacity)
      ensures old(BookingRuns.StoreInv(Value()) && d in runs && runs[d].capacity == capacity) ==>
                BookingRuns.StoreInv(Value())
    {
      AskKeeps(d, capacity);
      if capacity >= MAX_CAPACITY { return Booking.AskLimit; }
      if (d, capacity + 1) !in approvals {
        approvals := approvals[(d, capacity + 1) := Booking.Pending];
        return Booking.AskPending;
      }
      ask := if approvals[(d, capacity + 1)] == Booking.Denied then Booking.AskDenied else Booking.AskPending;
    }

    method ProposeScheduleDate(r: Request, now: Now) returns (date: Option<Date>)
      modifies this
      ensures (Value(), date) == Booking.Propose(old(Value()), r, now)
      ensures old(BookingRuns.StoreInv(Value())) ==>
                BookingRuns.StoreInv(Value()) && (date.Some? ==> Tuesday(date.value))
    {
      ProposeKeeps(r, now);
      var first := NextTuesday(now);
      var d := first;
      if r.earliest.Some? && r.earliest.value > d { d := r.earliest.value; }
      d := d + (2 - d % 7 + 7) % 7;
      assert d == ProposalDay(now, r.earliest);
      PrepareTransportRun(d);
      var run := runs[d];
      if !run.open || (d == first && SameDay(now)) { return None; }
      var used, held := |Booking.BookedOn(Value(), d)|, |Booking.HeldOn(Value(), d)|;
      if used >= run.capacity {
        var _ := AskForCapacityApproval(d, run.capacity);
        return None;
      }
      if used + held >= run.capacity { return None; }
      date := Some(d);
    }

    method Coordinate(r0: Request, now: Now, allowed: bool, adminSameDay: bool)
      returns (r: Request, result: Booking.Coordination)
      modifies this
      ensures (Value(), r, result) == Booking.Coordinate(old(Value()), r0, now, allowed, adminSameDay)
      ensures forall id :: id in old(requests) && old(requests[id]) == r0 && old(BookingRuns.StoreInv(Value())) ==>
                && BookingRuns.StoreInv(Value())
                && (SavesAfter(result) ==> BookingRuns.MaySave(Value(), id, r))
    {
      forall id | id in requests && requests[id] == r0 && BookingRuns.StoreInv(Value())
        ensures CoordinatedWell(Booking.Coordinate(Value(), r0, now, allowed, adminSameDay), id)
      {
        CoordinateKeeps(id, now, allowed, adminSameDay);
      }
      r := r0;
      if !ReadyToCoordinate(r) || !allowed { return r, Booking.NotReady; }
      var d := r.proposed.value;
      if SameDay(now) && NextTuesday(now) == d && !adminSameDay { return r, Booking.IsSameDay; }
      PrepareTransportRun(d);
      var run := runs[d];
      if !run.open {
        r := r.(status := WaitingCapacity);
        return r, Booking.Full;
      }
      if |Booking.BookedOn(Value(), d)| >= run.capacity {
        r := r.(status := WaitingCapacity);
        var ask := AskForCapacityApproval(d, run.capacity);
        return r, if ask == Booking.AskDenied then Booking.CapacityDenied else Booking.Full;
      }
      r := r.(status := Coordinated, runDate := Some(d), proposed := None);
      result := Booking.Booked;
    }

    method ResolveCapacityApproval(asked: Option<Date>, approved: bool)
      modifies this
      ensures Value() == Booking.Resolve(old(Value()), asked, approved)
      ensures old(BookingRuns.StoreInv(Value())) ==> BookingRuns.StoreInv(Value())
    {
      AnswerKeeps(asked, approved);
      var pending := Booking.PendingFor(Value(), asked);
      if |pending| != 1 { return; }
      Booking.OnlyOne(pending);
      var row :| row in pending;
      if approved {
        if row.0 !in runs || !runs[row.0].open { return; }
        if row.1 > MAX_CAPACITY { return; }
        runs := runs[row.0 := runs[row.0].(capacity := row.1)];
      }
      approvals := approvals[row := if approved then Booking.Approved else Booking.Denied];
    }

    method SetTransportCapacity(d: Date, capacity: int)
      modifies this
      ensures Value() == Booking.SetCapacity(old(Value()), d, capacity)
      ensures old(BookingRuns.StoreInv(Value())) ==> BookingRuns.StoreInv(Value())
    {
      CapacityKeeps(d, capacity);
      if !(1 <= capacity <= MAX_CAPACITY) || !Tuesday(d) { return; }
      if |Booking.BookedOn(Value(), d) + Booking.HeldOn(Value(), d)| > capacity { return; }
      if d !in runs { runs := runs[d := Booking.Run(capacity, true)]; }
      runs := runs[d := runs[d].(capacity := capacity)];
      approvals := map k | k in approvals ::
        if k.0 == d && approvals[k] == Booking.Pending && k.1 <= capacity then Booking.Approved else approvals[k];
    }

    // ---------------------------------------------------------------- commands

    method Create(r: Request) returns (id: nat)
      modifies this
      ensures Value() == Booking.Create(old(Value()), r) && id == last && id in requests
      ensures old(BookingRuns.StoreInv(Value())) && NewlySound(r) ==> BookingRuns.StoreInv(Value())
    {
      CreateKeeps(r);
      last := last + 1;
      id := last;
      Save(id, r);
      if r.representsBoth { Save(id, requests[id]); }
    }

    /** A command about a known request. */
    method ApplyTo(id: nat, phone: Phone, cmd: Command, rd: Commands.Reading, now: Now, time: int)
      returns (o: Booking.Outcome)
      modifies this
      ensures o == Booking.Targeted(old(Value()), id, phone, cmd, rd, now, time)
      ensures o.Ok? ==> Value() == o.state
      ensures old(BookingRuns.StoreInv(Value())) ==> BookingRuns.GoodOutcome(o)
    {
      if BookingRuns.StoreInv(Value()) { BookingRuns.TargetedKeeps(Value(), id, phone, cmd, rd, now, time); }
      if id !in requests || !Booking.Visible(requests[id]) { return Booking.Failed; }
      var v := CommandHandler.Apply(requests[id], phone, cmd, rd, now, time);
      match v {
        case Refused => o := Booking.Failed;
        case Unsaved => o := Booking.Ok(Value(), None, false);
        case Changed(r, handoff) =>
          Save(id, r);
          o := Booking.Ok(Value(), Some(id), handoff);
      }
    }

    method OpenRequest(phone: Phone, cmd: Command, rd: Commands.Reading, time: int) returns (o: Booking.Outcome)
      requires cmd.Donate? || cmd.ReceiveFromDonor?
      modifies this
      ensures o == Booking.Open(old(Value()), phone, cmd, rd, time)
      ensures o.Ok? ==> Value() == o.state
      ensures old(BookingRuns.StoreInv(Value())) ==> BookingRuns.GoodOutcome(o)
    {
      if BookingRuns.StoreInv(Value()) { BookingRuns.OpenKeeps(Value(), phone, cmd, rd, time); }
      var v := Commands.Opened(phone, cmd, rd, time);
      if v.Refused? { return Booking.Failed; }
      if v.Unsaved? { return Booking.Ok(Value(), None, false); }
      o := StoreOpened(v.request, rd);
    }

    method StoreOpened(r: Request, rd: Commands.Reading) returns (o: Booking.Outcome)
      modifies this
      ensures o == Booking.OpenVerdict(old(Value()), r, rd) && Value() == o.state
    {
      var id: nat;
      if rd.duplicate.Some? && rd.duplicate.value in requests && !rd.newRequestWords {
        id := rd.duplicate.value;
      } else {
        id := Create(r);
      }
      Save(id, requests[id]);
      o := Booking.Ok(Value(), Some(id), false);
    }

    method Interest(number: nat, phone: Phone, rd: Commands.Reading) returns (o: Booking.Outcome)
      modifies this
      ensures o == Booking.Claim(old(Value()), number, phone, rd)
      ensures o.Ok? ==> Value() == o.state
      ensures old(BookingRuns.StoreInv(Value())) ==> BookingRuns.GoodOutcome(o)
    {
      if BookingRuns.StoreInv(Value()) { BookingRuns.ClaimStoreKeeps(Value(), number, phone, rd); }
      if number !in requests || !Booking.Offered(requests[number], phone) { return Booking.Failed; }
      var v := Commands.Claimed(requests[number], phone, rd);
      if !v.Changed? { return Booking.Failed; }
      Save(number, v.request);
      o := Booking.Ok(Value(), Some(number), false);
    }

    method EscalateUnknown(phone: Phone, borderline: bool) returns (o: Booking.Outcome)
      modifies this
      ensures o == Booking.Borderline(old(Value()), phone, borderline) && o.Ok? && Value() == o.state
      ensures old(BookingRuns.StoreInv(Value())) ==> BookingRuns.GoodOutcome(o)
    {
      if BookingRuns.StoreInv(Value()) && borderline { BookingRuns.BorderlineKeeps(Value(), phone); }
      if !borderline { return Booking.Ok(Value(), None, true); }
      var sender := Commands.NewParty(Donor, phone, false, 0);
      var id := Create(Request(0, Collecting, Donation, false, false, [], [sender], [], None, None, None, map[]));
      Save(id, requests[id].(status := Human));
      o := Booking.Ok(Value(), Some(id), true);
    }

    method ApplyCommand(phone: Phone, cmd: Command, rd: Commands.Reading, now: Now, time: int)
      returns (o: Booking.Outcome)
      modifies this
      ensures o == Booking.Execute(old(Value()), phone, cmd, rd, now, time)
      ensures o.Ok? ==> Value() == o.state
      ensures old(BookingRuns.StoreInv(Value())) ==> BookingRuns.GoodOutcome(o)
    {
      if BookingRuns.StoreInv(Value()) { BookingRuns.ExecuteKeeps(Value(), phone, cmd, rd, now, time); }
      if cmd.AskStatus? || cmd.Seek? {
        o := Booking.Ok(Value(), None, false);
      } else if cmd.Donate? || cmd.ReceiveFromDonor? {
        o := OpenRequest(phone, cmd, rd, time);
      } else if cmd.Interest? {
        o := Interest(cmd.number, phone, rd);
      } else if rd.target.Some? {
        o := ApplyTo(rd.target.value, phone, cmd, rd, now, time);
      } else if cmd.Escalate? {
        o := EscalateUnknown(phone, cmd.borderline);
      } else {
        o := if cmd.Next? then Booking.Ok(Value(), None, false) else Booking.Failed;
      }
    }

    // ------------------------------------------------------------------- plans

    method AnyNamesOutside(cmds: seq<Commands.Planned>) returns (found: bool)
      ensures found <==> exists i :: 0 <= i < |cmds| && PlanGate.NamesOutside(cmds[i])
    {
      for i := 0 to |cmds|
        invariant forall j :: 0 <= j < i ==> !PlanGate.NamesOutside(cmds[j])
      {
        if PlanGate.NamesOutside(cmds[i]) { return true; }
      }
      found := false;
    }

    /** executableCommands: the reordered plan without what the sender may not
        state. */
    method Filter(p: PlanGate.Plan) returns (cmds: seq<Commands.Planned>)
      ensures cmds == PlanGate.Executable(Value(), p)
    {
      var ordered := Reorder.ReorderPlan(p.cmds);
      ghost var keep := PlanGate.Runnable(Value(), p.phone, p.context, ordered);
      cmds := [];
      for i := 0 to |ordered|
        invariant cmds == Reorder.Where(ordered[..i], keep)
      {
        assert ordered[..i + 1] == ordered[..i] + [ordered[i]];
        Reorder.WhereConcat(ordered[..i], [ordered[i]], keep);
        if PlanGate.MayRun(Value(), p.phone, p.context, ordered, ordered[i]) { cmds := cmds + [ordered[i]]; }
      }
      assert ordered[..|ordered|] == ordered;
    }

    /** The command loop, with the photo gate before and after each command. */
    method RunCommands(phone: Phone, cmds: seq<Commands.Planned>, gate: PlanGate.Gate, now: Now, time: int)
      returns (o: Booking.Outcome)
      modifies this
      ensures o == PlanGate.RunGated(old(Value()), phone, cmds, gate, now, time, None)
      ensures o.Ok? ==> Value() == o.state
      ensures old(BookingRuns.StoreInv(Value())) && o.Ok? ==> BookingRuns.StoreInv(Value())
    {
      var request: Option<nat> := None;
      var i := 0;
      assert cmds[0..] == cmds;
      while i < |cmds|
        invariant i <= |cmds|
        invariant old(BookingRuns.StoreInv(Value())) ==> BookingRuns.StoreInv(Value())
        invariant PlanGate.RunGated(old(Value()), phone, cmds, gate, now, time, None)
                  == PlanGate.RunGated(Value(), phone, cmds[i..], gate, now, time, request)
      {
        assert cmds[i..][0] == cmds[i] && cmds[i..][1..] == cmds[i + 1..];
        if PlanGate.StopsBefore(Value(), cmds[i].0, gate, request) { return Booking.Ok(Value(), request, false); }
        var result := ApplyCommand(phone, cmds[i].0, cmds[i].1, now, time);
        if result.Failed? { return Booking.Failed; }
        if result.request.Some? { request := result.request; }
        if PlanGate.StopsAfter(Value(), cmds[i].0, gate, result.request)
           || Booking.Ends(Value(), request, result.handoff) {
          return Booking.Ok(Value(), request, result.handoff);
        }
        i := i + 1;
      }
      o := Booking.Ok(Value(), request, false);
    }

    method OfferDate(id: nat, now: Now)
      requires id in requests
      modifies this
      ensures Value() == Booking.OfferDate(old(Value()), id, now) && id in requests
      ensures old(BookingRuns.StoreInv(Value())) ==> BookingRuns.StoreInv(Value())
    {
      if BookingRuns.StoreInv(Value()) { BookingRuns.OfferDateKeeps(Value(), id, now); }
      var r := requests[id];
      if Booking.NeedsProposal(r, now) {
        var previous := r.proposed;
        var date := ProposeScheduleDate(r, now);
        if date.None? {
          r := r.(status := WaitingCapacity);
        } else {
          r := r.(proposed := date, status := AwaitingApproval);
          if previous != date { r := r.(parties := Commands.ClearedDates(r.parties)); }
        }
        Save(id, r);
      }
    }

    method BookDate(id: nat, now: Now, allowed: bool)
      requires id in requests
      modifies this
      ensures Value() == Booking.BookDate(old(Value()), id, now, allowed)
      ensures old(BookingRuns.StoreInv(Value())) ==> BookingRuns.StoreInv(Value())
    {
      if BookingRuns.StoreInv(Value()) { BookingRuns.CoordinateKeeps(Value(), id, now, allowed, false); }
      var r, result := Coordinate(requests[id], now, allowed, false);
      if result == Booking.Full || result == Booking.CapacityDenied {
        r := r.(status := WaitingCapacity);
        Save(id, r);
      }
      if result == Booking.Booked { Save(id, r); }
    }

    /** The transaction that runs a plan: the version check, the savepoint, the
        town check, the commands, and the proposal and booking at the end. */
    method FinishPlan(p: PlanGate.Plan)
      modifies this
      ensures Value() == PlanGate.RunPlan(old(Value()), p)
      ensures old(BookingRuns.StoreInv(Value())) ==> BookingRuns.StoreInv(Value())
    {
      PlanKeeps(p);
      if !Booking.Fresh(Value(), p.expected) { return; }
      var outside := AnyNamesOutside(p.cmds);
      if outside {
        if p.outsideTarget.Some? { RejectOutside(p.outsideTarget.value); }
        return;
      }
      var cmds := Filter(p);
      var last0, requests0, runs0, approvals0 := last, requests, runs, approvals;
      var o := RunCommands(p.phone, cmds, PlanGate.GateOf(Value(), p, cmds), p.now, p.time);
      if o.Failed? {
        last, requests, runs, approvals := last0, requests0, runs0, approvals0;
        return;
      }
      if o.handoff || o.request.None? || o.request.value !in requests { return; }
      OfferDate(o.request.value, p.now);
      BookDate(o.request.value, p.now, p.allowed);
    }

    lemma SaveKeeps(id: nat, r: Request)
      ensures BookingRuns.StoreInv(Value()) ==>
                (BookingRuns.StoreInv(Booking.Save(Value(), id, r)) <==> BookingRuns.MaySave(Value(), id, r))
    {
      if BookingRuns.StoreInv(Value()) { BookingRuns.SaveKeepsExactly(Value(), id, r); }
    }

    lemma AskKeeps(d: Date, capacity: int)
      ensures BookingRuns.StoreInv(Value()) && d in runs && runs[d].capacity == capacity ==>
                BookingRuns.StoreInv(Booking.AskFor(Value(), d, capacity).0)
    {
      if BookingRuns.StoreInv(Value()) && d in runs && runs[d].capacity == capacity {
        BookingRuns.AskForKeeps(Value(), d, capacity);
      }
    }

    lemma ProposeKeeps(r: Request, now: Now)
      ensures var (t, date) := Booking.Propose(Value(), r, now);
              BookingRuns.StoreInv(Value()) ==> BookingRuns.StoreInv(t) && (date.Some? ==> Tuesday(date.value))
    {
      if BookingRuns.StoreInv(Value()) { BookingRuns.ProposeKeeps(Value(), r, now); }
    }

    lemma CreateKeeps(r: Request)
      ensures BookingRuns.StoreInv(Value()) && NewlySound(r) ==> BookingRuns.StoreInv(Booking.Create(Value(), r))
    {
      if BookingRuns.StoreInv(Value()) && NewlySound(r) { BookingRuns.CreateKeeps(Value(), r); }
    }

    lemma CoordinateKeeps(id: nat, now: Now, allowed: bool, sameDay: bool)
      requires BookingRuns.StoreInv(Value()) && id in requests
      ensures CoordinatedWell(Booking.Coordinate(Value(), requests[id], now, allowed, sameDay), id)
    {
      var (t, r, result) := Booking.Coordinate(Value(), requests[id], now, allowed, sameDay);
      BookingRuns.CoordinateKeeps(Value(), id, now, allowed, sameDay);
      if SavesAfter(result) { BookingRuns.SaveKeepsExactly(t, id, r); }
    }

    lemma PlanKeeps(p: PlanGate.Plan)
      ensures BookingRuns.StoreInv(Value()) ==> BookingRuns.StoreInv(PlanGate.RunPlan(Value(), p))
    {
      if BookingRuns.StoreInv(Value()) {
        var e, n := PlanGate.PlanIsAStep(Value(), p);
        BookingRuns.StepKeeps(Value(), e);
      }
    }

    lemma CapacityKeeps(d: Date, capacity: int)
      ensures BookingRuns.StoreInv(Value()) ==> BookingRuns.StoreInv(Booking.SetCapacity(Value(), d, capacity))
    {
      if BookingRuns.StoreInv(Value()) { BookingRuns.SetCapacityKeeps(Value(), d, capacity); }
    }

    lemma RetryKeeps(id: nat, now: Now, allowed: bool)
      ensures BookingRuns.StoreInv(Value()) ==> BookingRuns.StoreInv(Booking.Retry(Value(), id, now, allowed))
    {
      if BookingRuns.StoreInv(Value()) { BookingRuns.RetryKeeps(Value(), id, now, allowed); }
    }

    lemma AnswerKeeps(asked: Option<Date>, approved: bool)
      ensures BookingRuns.StoreInv(Value()) ==> BookingRuns.StoreInv(Booking.Resolve(Value(), asked, approved))
    {
      if BookingRuns.StoreInv(Value()) { BookingRuns.ResolveKeeps(Value(), asked, approved); }
    }

    lemma ResumeKeeps(id: nat, version: nat)
      ensures BookingRuns.StoreInv(Value()) ==> BookingRuns.StoreInv(Booking.AdminResume(Value(), id, version))
    {
      if BookingRuns.StoreInv(Value()) { BookingRuns.ResumeKeeps(Value(), id, version); }
    }

    lemma CompleteKeeps(id: nat, version: nat)
      ensures BookingRuns.StoreInv(Value()) ==> BookingRuns.StoreInv(Booking.AdminComplete(Value(), id, version))
    {
      if BookingRuns.StoreInv(Value()) { BookingRuns.CompleteKeeps(Value(), id, version); }
    }

    lemma AdminBookKeeps(id: nat, version: nat, now: Now, allowed: bool, sameDay: bool)
      ensures BookingRuns.StoreInv(Value()) ==>
                BookingRuns.StoreInv(Booking.AdminBook(Value(), id, version, now, allowed, sameDay))
    {
      if BookingRuns.StoreInv(Value()) { BookingRuns.AdminBookKeeps(Value(), id, version, now, allowed, sameDay); }
    }

    lemma StepKeeps(e: Booking.Event)
      ensures BookingRuns.StoreInv(Value()) ==> BookingRuns.StoreInv(Booking.Step(Value(), e))
    {
      if BookingRuns.StoreInv(Value()) { BookingRuns.StepKeeps(Value(), e); }
    }

    // ------------------------------------------------- the other transactions

    method RejectOutside(id: nat)
      modifies this
      ensures Value() == Booking.RejectOutside(old(Value()), id)
      ensures old(BookingRuns.StoreInv(Value())) ==> BookingRuns.StoreInv(Value())
    {
      StepKeeps(Booking.OutsideTown(id));
      if id in requests && !Protected(requests[id]) {
        Save(id, requests[id].(status := Status.Rejected));
      }
    }

    method LinkPhoto(id: nat, phone: Phone, photo: string)
      modifies this
      ensures Value() == Booking.AddPhoto(old(Value()), id, phone, photo)
      ensures old(BookingRuns.StoreInv(Value())) ==> BookingRuns.StoreInv(Value())
    {
      StepKeeps(Booking.PhotoReceived(id, phone, photo));
      if id !in requests || Protected(requests[id]) { return; }
      var r := requests[id];
      if !(exists p :: p in r.parties && p.role == Donor && p.phone == phone) { return; }
      if photo !in r.photos { r := r.(photos := r.photos + [photo]); }
      if |r.parties| == 1 { r := r.(status := Available); }
      Save(id, r);
    }

    method HandOver(id: nat)
      modifies this
      ensures Value() == Booking.HandOver(old(Value()), id)
      ensures old(BookingRuns.StoreInv(Value())) ==> BookingRuns.StoreInv(Value())
    {
      StepKeeps(Booking.TurnFailed(id));
      if id in requests && Booking.Visible(requests[id]) { Save(id, requests[id].(status := Human)); }
    }

    method RetryWaiting(id: nat, now: Now, allowed: bool)
      modifies this
      ensures Value() == Booking.Retry(old(Value()), id, now, allowed)
      ensures old(BookingRuns.StoreInv(Value())) ==> BookingRuns.StoreInv(Value())
    {
      RetryKeeps(id, now, allowed);
      if id !in requests || requests[id].status != WaitingCapacity { return; }
      var r := requests[id];
      if r.proposed.None? {
        var date := ProposeScheduleDate(r, now);
        if date.None? { return; }
        r := r.(proposed := date, status := AwaitingApproval, parties := Commands.ClearedDates(r.parties));
        Save(id, r);
      } else {
        var booked, result := Coordinate(r, now, allowed, false);
        if result == Booking.Booked { Save(id, booked); }
      }
    }

    /** The waitlist loop: one transaction for each request that was waiting
        when the pass began. */
    method WaitlistPass(waiting: seq<nat>, now: Now, allowed: bool)
      modifies this
      ensures Value() == Booking.After(old(Value()), Ticks(waiting, now, allowed))
      ensures old(BookingRuns.StoreInv(Value())) ==> BookingRuns.StoreInv(Value())
    {
      assert waiting[0..] == waiting;
      for i := 0 to |waiting|
        invariant Booking.After(old(Value()), Ticks(waiting, now, allowed))
                  == Booking.After(Value(), Ticks(waiting[i..], now, allowed))
      {
        TicksFrom(waiting, i, now, allowed);
        RetryWaiting(waiting[i], now, allowed);
      }
      if old(BookingRuns.StoreInv(Value())) {
        BookingRuns.AfterKeeps(old(Value()), Ticks(waiting, now, allowed));
      }
    }

    method AdminCoordinate(id: nat, version: nat, now: Now, allowed: bool, sameDay: bool)
      modifies this
      ensures Value() == Booking.AdminBook(old(Value()), id, version, now, allowed, sameDay)
      ensures old(BookingRuns.StoreInv(Value())) ==> BookingRuns.StoreInv(Value())
    {
      AdminBookKeeps(id, version, now, allowed, sameDay);
      if id !in requests || requests[id].version != version { return; }
      var runs0, approvals0 := runs, approvals;
      var r, result := Coordinate(requests[id], now, allowed, sameDay);
      if result == Booking.Booked { Save(id, r); } else { runs, approvals := runs0, approvals0; }
    }

    method AdminComplete(id: nat, version: nat)
      modifies this
      ensures Value() == Booking.AdminComplete(old(Value()), id, version)
      ensures old(BookingRuns.StoreInv(Value())) ==> BookingRuns.StoreInv(Value())
    {
      CompleteKeeps(id, version);
      if id in requests && requests[id].version == version && requests[id].status == Coordinated {
        Save(id, requests[id].(status := Closed));
      }
    }

    method AdminResume(id: nat, version: nat)
      modifies this
      ensures Value() == Booking.AdminResume(old(Value()), id, version)
      ensures old(BookingRuns.StoreInv(Value())) ==> BookingRuns.StoreInv(Value())
    {
      ResumeKeeps(id, version);
      if id in requests && requests[id].version == version && requests[id].status == Human {
        Save(id, requests[id].(status := Collecting));
      }
    }
  }

  function Ticks(waiting: seq<nat>, now: Now, allowed: bool): (es: seq<Booking.Event>)
    ensures |es| == |waiting|
    ensures forall i :: 0 <= i < |waiting| ==> es[i] == Booking.WaitlistTick(waiting[i], now, allowed)
  {
    seq(|waiting|, i requires 0 <= i < |waiting| => Booking.WaitlistTick(waiting[i], now, allowed))
  }

  lemma TicksFrom(waiting: seq<nat>, i: nat, now: Now, allowed: bool)
    requires i < |waiting|
    ensures Ticks(waiting[i..], now, allowed)
            == [Booking.WaitlistTick(waiting[i], now, allowed)] + Ticks(waiting[i + 1..], now, allowed)
  {}
}
