/** Inside one transaction a request may be saved several times. This module
    says what one such save may do to the request, and that every transaction
    is, for every request, a path of such saves. */
module BookingPaths {
  import opened Types
  import opened Policies
  import opened Commands
  import opened Booking
  import opened Lifecycle
  import opened BookingRuns

  function Side(r: Request, role: Role): Option<Party> {
    if 1 <= |r.parties| && r.parties[0].role == role then Some(r.parties[0])
    else if 2 <= |r.parties| && r.parties[1].role == role then Some(r.parties[1])
    else None
  }

  /** The plan holds a cancellation of this request. */
  predicate Cancels(e: Event, id: nat, onlyAsk: bool) {
    e.PlanFinished? && (exists j ::
      && 0 <= j < |e.cmds| && e.cmds[j].0.Cancel?
      && (onlyAsk ==> e.cmds[j].0.choice == CancelChoice.Ask) && e.cmds[j].1.target == Some(id))
  }

  /** Command j of the plan is a cancellation of request id that clears its date. */
  predicate Clearing(e: Event, id: nat, j: nat) {
    && e.PlanFinished? && j < |e.cmds| && e.cmds[j].0.Cancel? && e.cmds[j].1.target == Some(id)
    && e.cmds[j].0.choice != CancelChoice.NextWeek
  }

  predicate NamesClearing(e: Event, id: nat) {
    e.PlanFinished? && exists j :: 0 <= j < |e.cmds| && Clearing(e, id, j)
  }

  /** Command j of the plan is an approval of date d of request id: explicit,
      and of a date the conversation quoted. */
  predicate Approves(e: Event, id: nat, d: Date, j: nat) {
    && e.PlanFinished? && j < |e.cmds|
    && e.cmds[j].0.ApproveSchedule? && e.cmds[j].0.date == d
    && e.cmds[j].1.target == Some(id) && e.cmds[j].1.explicitApproval && e.cmds[j].1.dateQuoted
  }

  /** The plan is the one in which consent c to request id was given, while the
      request was r. */
  predicate Gives(e: Event, id: nat, c: Consent, r: Request) {
    && e.PlanFinished? && e.phone == c.phone
    && (exists j :: 0 <= j < |e.cmds| && Approves(e, id, c.date, j))
    && r.proposed == Some(c.date) && c.facts == FactsOf(r)
  }

  /** A side stays who it is; its approved date is dropped, kept together with
      its consent, or given by its own phone now, for the live proposal. */
  predicate SideMoves(r: Request, q: Request, role: Role, e: Event, id: nat) {
    match (Side(r, role), Side(q, role))
    case (None, None) => true
    case (None, Some(p)) => p.scheduleDate.None?
    case (Some(_), None) => false
    case (Some(before), Some(after)) =>
      && after.phone == before.phone
      && (|| after.scheduleDate.None?
          || (after.scheduleDate == before.scheduleDate && ConsentOf(q, role) == ConsentOf(r, role))
          || (&& after.scheduleDate.Some? && ConsentOf(q, role).Some?
              && var c := ConsentOf(q, role).value;
                 c.date == after.scheduleDate.value && c.phone == after.phone && Gives(e, id, c, r)))
  }

  /** How a booked request may change: not at all, or by being cancelled,
      handed to a human after a failed turn, or completed. */
  predicate BookedMoves(r: Request, q: Request, e: Event, id: nat) {
    || q == r.(version := q.version)
    || (Cancels(e, id, false) && !IsBooked(q))
    || (e == TurnFailed(id) && q == r.(version := q.version, status := Human))
    || (e.AdminCompletes? && e.id == id && q == r.(version := q.version, status := Closed))
  }

  predicate Moves(r: Request, q: Request, e: Event, id: nat) {
    && RequestInv(r) && RequestInv(q)
    && q.version == r.version + 1
    && SideMoves(r, q, Donor, e, id) && SideMoves(r, q, Receiver, e, id)
    && (q.earliest == r.earliest || Cancels(e, id, true))
    && (q.runDate == r.runDate || (q.runDate.None? && NamesClearing(e, id)) || ReadyToCoordinate(r))
    && (IsBooked(r) ==> BookedMoves(r, q, e, id))
    && (IsBooked(q) && !IsBooked(r) ==> ReadyToCoordinate(r) && q.runDate == r.proposed)
    && (q.proposed != r.proposed && q.proposed.Some? ==> Undated(q.parties))
  }

  predicate Path(rs: seq<Request>, e: Event, id: nat) {
    rs != [] && forall i :: 0 <= i < |rs| - 1 ==> Moves(rs[i], rs[i + 1], e, id)
  }

  /** A request no one has approved a date of yet, at its creation. */
  predicate Newborn(r: Request) {
    && RequestInv(r) && r.version == 1 && Undated(r.parties) && !IsBooked(r)
    && r.proposed.None? && r.runDate.None? && r.earliest.None?
  }

  /** The saves that lead request id from store s to store t. */
  ghost predicate Leads(s: State, t: State, e: Event, id: nat, rs: seq<Request>) {
    && Path(rs, e, id)
    && id in t.requests && rs[|rs| - 1] == t.requests[id]
    && (if id in s.requests then rs[0] == s.requests[id] else Newborn(rs[0]))
  }

  lemma Join(a: State, b: State, c: State, e: Event, id: nat, rs: seq<Request>, qs: seq<Request>)
    requires id in b.requests && Leads(a, b, e, id, rs) && Leads(b, c, e, id, qs)
    ensures Leads(a, c, e, id, rs + qs[1..])
  {
    var all := rs + qs[1..];
    forall i | 0 <= i < |all| - 1 ensures Moves(all[i], all[i + 1], e, id) {
      if i >= |rs| - 1 { assert all[i] == qs[i - (|rs| - 1)] && all[i + 1] == qs[i + 1 - (|rs| - 1)]; }
    }
  }

  /** One save is one move of its request, and leaves the others alone. */
  lemma SaveLeads(s: State, t: State, k: nat, x: Request, e: Event, id: nat) returns (rs: seq<Request>)
    requires k in t.requests && s.requests == t.requests && id in Save(t, k, x).requests
    requires Moves(s.requests[k], Stored(x), e, k)
    ensures Leads(s, Save(t, k, x), e, id, rs)
  {
    rs := if id == k then [s.requests[k], Stored(x)] else [s.requests[id]];
  }

  // -------------------------------------------------- moves that are commands

  lemma StoredSides(x: Request, role: Role)
    requires Ordered(Stored(x).parties)
    ensures |x.parties| == 1 ==>
              Side(Stored(x), role) == (if x.parties[0].role == role then Some(x.parties[0]) else None)
    ensures |x.parties| == 2 ==> x.parties[0].role != x.parties[1].role
    ensures |x.parties| == 2 ==> Side(Stored(x), role) == Some(x.parties[if x.parties[0].role == role then 0 else 1])
  {}

  /** The command rules, read role by role on the stored rows. */
  lemma EvolvesSide(r: Request, x: Request, e: Event, id: nat, j: nat, role: Role)
    requires RequestInv(r) && RequestInv(Stored(x))
    requires e.PlanFinished? && j < |e.cmds| && Evolves(r, x, e.phone, e.cmds[j].0)
    requires e.cmds[j].0.ApproveSchedule? ==> Approves(e, id, e.cmds[j].0.date, j)
    ensures SideMoves(r, Stored(x), role, e, id)
  {
    StoredSides(x, role);
    assert forall i :: 0 <= i < |r.parties| ==> DateMoves(r, x, i, e.phone, e.cmds[j].0);
    assert ConsentOf(Stored(x), role) == ConsentOf(x, role);
    assert |x.parties| == |Stored(x).parties|;
  }

  lemma CommandMoves(r: Request, e: Event, j: nat, id: nat)
    requires RequestInv(r) && Visible(r)
    requires e.PlanFinished? && j < |e.cmds| && e.cmds[j].1.target == Some(id)
    ensures var v := Applied(r, e.phone, e.cmds[j].0, e.cmds[j].1, e.now, e.time);
            v.Changed? ==> Moves(r, Stored(v.request), e, id)
  {
    var cmd, rd := e.cmds[j].0, e.cmds[j].1;
    var v := Applied(r, e.phone, cmd, rd, e.now, e.time);
    if v.Changed? {
      AppliedKeeps(r, e.phone, cmd, rd, e.now, e.time);
      AppliedEvolves(r, e.phone, cmd, rd, e.now, e.time);
      BookedIsFrozen(r, e.phone, cmd, rd, e.now, e.time);
      EvolvesSide(r, v.request, e, id, j, Donor);
      EvolvesSide(r, v.request, e, id, j, Receiver);
      if IsBooked(r) && !cmd.Cancel? { assert Stored(r) == r.(version := r.version + 1); }
      if cmd.Cancel? { assert Cancels(e, id, false); }
      if cmd.Cancel? && cmd.choice != CancelChoice.NextWeek { assert Clearing(e, id, j); }
    }
  }

  lemma ClaimMoves(r: Request, phone: Phone, rd: Reading, e: Event, id: nat)
    requires RequestInv(r) && Offered(r, phone)
    ensures var v := Claimed(r, phone, rd); v.Changed? ==> Moves(r, Stored(v.request), e, id)
  {
    ClaimKeeps(r, phone, rd);
    RolesPresent(r.parties);
  }

  /** A save of the status or the photos alone. */
  lemma StatusMoves(r: Request, q: Request, e: Event, id: nat)
    requires RequestInv(r) && q == r.(status := q.status, photos := q.photos)
    requires q.status == WaitingCapacity ==> |r.parties| == 2
    requires IsBooked(q) ==> IsBooked(r)
    requires IsBooked(r) ==> BookedMoves(r, Stored(q), e, id)
    ensures Moves(r, Stored(q), e, id)
  {
    StatusChangeKeeps(r, q);
  }

  lemma OfferMoves(r: Request, date: Date, e: Event, id: nat)
    requires RequestInv(r) && |r.parties| == 2 && !IsBooked(r)
    requires Tuesday(date) && (r.earliest.Some? ==> r.earliest.value <= date)
    ensures var q := r.(proposed := Some(date), status := AwaitingApproval, parties := ClearedDates(r.parties));
            Moves(r, Stored(q), e, id)
  {
    OfferKeeps(r, date);
  }

  lemma BookMoves(r: Request, date: Date, e: Event, id: nat)
    requires RequestInv(r) && ReadyToCoordinate(r) && r.proposed == Some(date)
    ensures Moves(r, Stored(r.(status := Coordinated, runDate := Some(date), proposed := None)), e, id)
  {
    BookKeeps(r, date);
  }

  // ------------------------------------------- transactions as paths of saves

  lemma NewbornStored(r: Request)
    requires RequestInv(Stored(r)) && r.version == 0 && Undated(r.parties)
    requires r.proposed.None? && r.runDate.None? && r.earliest.None? && !IsBooked(r)
    ensures Newborn(Stored(r))
  {
    assert forall p :: p in Stored(r).parties ==> p in r.parties;
  }

  lemma CreateLeads(s: State, r: Request, e: Event, id: nat) returns (rs: seq<Request>)
    requires StoreInv(s) && RequestInv(Stored(r)) && r.version == 0 && Undated(r.parties)
    requires r.proposed.None? && r.runDate.None? && r.earliest.None? && !IsBooked(r) && r.status != WaitingCapacity
    requires id in Create(s, r).requests
    ensures Leads(s, Create(s, r), e, id, rs)
  {
    NewbornStored(r);
    var k := s.last + 1;
    var s1 := Save(s.(last := k), k, r);
    if id != k {
      rs := [s.requests[id]];
    } else if r.representsBoth {
      StatusMoves(s1.requests[k], s1.requests[k], e, k);
      rs := [s1.requests[k], Stored(s1.requests[k])];
    } else {
      rs := [s1.requests[k]];
    }
  }

  lemma OpenLeads(s: State, e: Event, j: nat, id: nat) returns (rs: seq<Request>)
    requires StoreInv(s) && e.PlanFinished? && j < |e.cmds| && (e.cmds[j].0.Donate? || e.cmds[j].0.ReceiveFromDonor?)
    requires var o := Open(s, e.phone, e.cmds[j].0, e.cmds[j].1, e.time); o.Ok? && id in o.state.requests
    ensures Leads(s, Open(s, e.phone, e.cmds[j].0, e.cmds[j].1, e.time).state, e, id, rs)
  {
    var cmd, rd := e.cmds[j].0, e.cmds[j].1;
    var v := Opened(e.phone, cmd, rd, e.time);
    if v.Unsaved? {
      rs := [s.requests[id]];
    } else {
      OpenedKeeps(e.phone, cmd, rd, e.time);
      OpenedIsNew(e.phone, cmd, rd, e.time);
      rs := OpenVerdictLeads(s, v.request, rd, e, id);
    }
  }

  /** The duplicate check, or the creation, of a new request. */
  lemma OpenVerdictLeads(s: State, r: Request, rd: Reading, e: Event, id: nat) returns (rs: seq<Request>)
    requires StoreInv(s) && RequestInv(Stored(r)) && r.version == 0 && Undated(r.parties)
    requires r.proposed.None? && r.runDate.None? && r.earliest.None? && r.status == Collecting
    requires id in OpenVerdict(s, r, rd).state.requests
    ensures Leads(s, OpenVerdict(s, r, rd).state, e, id, rs)
  {
    if rd.duplicate.Some? && rd.duplicate.value in s.requests && !rd.newRequestWords {
      var q := s.requests[rd.duplicate.value];
      assert RequestInv(q);
      rs := OneSave(s, rd.duplicate.value, q, e, id);
    } else {
      rs := CreateThenSave(s, r, Collecting, e, id);
      var t := Create(s, r);
      assert t.requests[t.last].(status := Collecting) == t.requests[t.last];
    }
  }

  lemma OpenedIsNew(phone: Phone, cmd: Command, rd: Reading, time: int)
    requires cmd.Donate? || cmd.ReceiveFromDonor?
    ensures var v := Opened(phone, cmd, rd, time);
            v.Changed? ==>
              && v.request.version == 0 && Undated(v.request.parties)
              && v.request.proposed.None? && v.request.runDate.None? && v.request.earliest.None?
              && v.request.status == Collecting
  {}

  /** The plan's own save after a creation. */
  lemma CreateThenSave(s: State, r: Request, status: Status, e: Event, id: nat) returns (rs: seq<Request>)
    requires StoreInv(s) && RequestInv(Stored(r)) && r.version == 0 && Undated(r.parties)
    requires r.proposed.None? && r.runDate.None? && r.earliest.None? && r.status == Collecting
    requires status in {Collecting, Human}
    requires var t := Create(s, r); id in t.requests || id == t.last
    ensures var t := Create(s, r);
            t.last in t.requests && t.requests[t.last].status == Collecting
            && Leads(s, Save(t, t.last, t.requests[t.last].(status := status)), e, id, rs)
  {
    var t := Create(s, r);
    CreateKeeps(s, r);
    var first := CreateLeads(s, r, e, id);
    var k := t.last;
    assert RequestInv(t.requests[k]);
    StatusMoves(t.requests[k], t.requests[k].(status := status), e, k);
    var second := SaveLeads(t, t, k, t.requests[k].(status := status), e, id);
    Join(s, t, Save(t, k, t.requests[k].(status := status)), e, id, first, second);
    rs := first + second[1..];
  }

  lemma BorderlineLeads(s: State, phone: Phone, e: Event, id: nat) returns (rs: seq<Request>)
    requires StoreInv(s)
    requires var o := Borderline(s, phone, true); o.Ok? && id in o.state.requests
    ensures Leads(s, Borderline(s, phone, true).state, e, id, rs)
  {
    var r := Request(0, Collecting, Donation, false, false, [], [NewParty(Donor, phone, false, 0)], [],
                     None, None, None, map[]);
    rs := CreateThenSave(s, r, Human, e, id);
  }

  lemma TargetedLeads(s: State, e: Event, j: nat, k: nat, id: nat) returns (rs: seq<Request>)
    requires StoreInv(s) && e.PlanFinished? && j < |e.cmds| && e.cmds[j].1.target == Some(k)
    requires var o := Targeted(s, k, e.phone, e.cmds[j].0, e.cmds[j].1, e.now, e.time); o.Ok? && id in o.state.requests
    ensures Leads(s, Targeted(s, k, e.phone, e.cmds[j].0, e.cmds[j].1, e.now, e.time).state, e, id, rs)
  {
    var r := s.requests[k];
    assert RequestInv(r);
    CommandMoves(r, e, j, k);
    var v := Applied(r, e.phone, e.cmds[j].0, e.cmds[j].1, e.now, e.time);
    if v.Changed? {
      rs := SaveLeads(s, s, k, v.request, e, id);
    } else {
      rs := [s.requests[id]];
    }
  }

  lemma ClaimLeads(s: State, e: Event, number: nat, phone: Phone, rd: Reading, id: nat) returns (rs: seq<Request>)
    requires StoreInv(s)
    requires var o := Claim(s, number, phone, rd); o.Ok? && id in o.state.requests
    ensures Leads(s, Claim(s, number, phone, rd).state, e, id, rs)
  {
    var r := s.requests[number];
    assert RequestInv(r);
    ClaimMoves(r, phone, rd, e, number);
    rs := SaveLeads(s, s, number, Claimed(r, phone, rd).request, e, id);
  }

  lemma ExecuteLeads(s: State, e: Event, j: nat, id: nat) returns (rs: seq<Request>)
    requires StoreInv(s) && e.PlanFinished? && j < |e.cmds|
    requires var o := Execute(s, e.phone, e.cmds[j].0, e.cmds[j].1, e.now, e.time); o.Ok? && id in o.state.requests
    ensures Leads(s, Execute(s, e.phone, e.cmds[j].0, e.cmds[j].1, e.now, e.time).state, e, id, rs)
  {
    var cmd, rd := e.cmds[j].0, e.cmds[j].1;
    if cmd.Donate? || cmd.ReceiveFromDonor? {
      rs := OpenLeads(s, e, j, id);
    } else if cmd.Interest? {
      rs := ClaimLeads(s, e, cmd.number, e.phone, rd, id);
    } else if rd.target.Some? && !cmd.AskStatus? && !cmd.Seek? {
      rs := TargetedLeads(s, e, j, rd.target.value, id);
    } else if rd.target.None? && cmd.Escalate? && cmd.borderline {
      rs := BorderlineLeads(s, e.phone, e, id);
    } else {
      rs := [s.requests[id]];
    }
  }

  lemma {:induction false} ExecuteAllLeads(s: State, e: Event, j: nat, request: Option<nat>, id: nat)
    returns (rs: seq<Request>)
    requires StoreInv(s) && e.PlanFinished? && j <= |e.cmds|
    requires var o := ExecuteAll(s, e.phone, e.cmds[j..], e.now, e.time, request); o.Ok? && id in o.state.requests
    ensures Leads(s, ExecuteAll(s, e.phone, e.cmds[j..], e.now, e.time, request).state, e, id, rs)
    decreases |e.cmds| - j
  {
    if j == |e.cmds| {
      rs := [s.requests[id]];
    } else {
      var o := Execute(s, e.phone, e.cmds[j].0, e.cmds[j].1, e.now, e.time);
      var next := if o.request.Some? then o.request else request;
      ExecuteKeeps(s, e.phone, e.cmds[j].0, e.cmds[j].1, e.now, e.time);
      assert e.cmds[j..][1..] == e.cmds[j + 1..];
      var all := ExecuteAll(s, e.phone, e.cmds[j..], e.now, e.time, request);
      if all.state == o.state {
        rs := ExecuteLeads(s, e, j, id);
      } else {
        var rest := ExecuteAllLeads(o.state, e, j + 1, next, id);
        if id in o.state.requests {
          var first := ExecuteLeads(s, e, j, id);
          Join(s, o.state, all.state, e, id, first, rest);
          rs := first + rest[1..];
        } else {
          ExecuteNeverDeletes(s, e, j, id);
          rs := rest;
        }
      }
    }
  }

  lemma ExecuteNeverDeletes(s: State, e: Event, j: nat, id: nat)
    requires e.PlanFinished? && j < |e.cmds|
    requires Execute(s, e.phone, e.cmds[j].0, e.cmds[j].1, e.now, e.time).Ok?
    ensures id in s.requests ==> id in Execute(s, e.phone, e.cmds[j].0, e.cmds[j].1, e.now, e.time).state.requests
  {
    var cmd, rd := e.cmds[j].0, e.cmds[j].1;
    if cmd.Donate? || cmd.ReceiveFromDonor? {
      assert Opened(e.phone, cmd, rd, e.time).Unsaved? || Opened(e.phone, cmd, rd, e.time).Changed?;
    } else if cmd.Interest? {
    } else if rd.target.Some? && !cmd.AskStatus? && !cmd.Seek? {
      TargetedNeverDeletes(s, rd.target.value, e.phone, cmd, rd, e.now, e.time, id);
    } else {
    }
  }

  lemma TargetedNeverDeletes(s: State, k: nat, phone: Phone, cmd: Command, rd: Reading, now: Now, time: int, id: nat)
    requires Targeted(s, k, phone, cmd, rd, now, time).Ok?
    ensures id in s.requests ==> id in Targeted(s, k, phone, cmd, rd, now, time).state.requests
  {}

  lemma OfferLeads(s: State, k: nat, now: Now, e: Event, id: nat) returns (rs: seq<Request>)
    requires StoreInv(s) && k in s.requests && id in OfferDate(s, k, now).requests
    ensures Leads(s, OfferDate(s, k, now), e, id, rs)
  {
    var r := s.requests[k];
    assert RequestInv(r);
    if NeedsProposal(r, now) {
      ProposeKeeps(s, r, now);
      ProposalDayIsLeast(now, r.earliest);
      var (t, date) := Propose(s, r, now);
      rs := ProposedLeads(s, t, k, date, e, id);
    } else {
      rs := [s.requests[id]];
    }
  }

  /** What the tail of finish saves after asking for a date. */
  function AfterAsking(r: Request, date: Option<Date>): Request {
    if date.None? then r.(status := WaitingCapacity)
    else r.(proposed := date, status := AwaitingApproval, parties := ClearedDates(r.parties))
  }

  lemma ProposedLeads(s: State, t: State, k: nat, date: Option<Date>, e: Event, id: nat) returns (rs: seq<Request>)
    requires k in s.requests && t.requests == s.requests && id in s.requests
    requires var r := s.requests[k];
             && RequestInv(r) && |r.parties| == 2 && !IsBooked(r)
             && (date.Some? ==> Tuesday(date.value) && (r.earliest.Some? ==> r.earliest.value <= date.value))
    ensures Leads(s, Save(t, k, AfterAsking(s.requests[k], date)), e, id, rs)
  {
    var r := s.requests[k];
    if date.None? { StatusMoves(r, r.(status := WaitingCapacity), e, k); } else { OfferMoves(r, date.value, e, k); }
    rs := SaveLeads(s, t, k, AfterAsking(r, date), e, id);
  }

  lemma TakeSlotMoves(s: State, q: Request, d: Date, e: Event, k: nat)
    requires d in s.runs && RequestInv(q) && ReadyToCoordinate(q) && q.proposed == Some(d)
    ensures var (t, r, result) := TakeSlot(s, q, d); t.requests == s.requests && Moves(q, Stored(r), e, k)
  {
    BookMoves(q, d, e, k);
    StatusMoves(q, q.(status := WaitingCapacity), e, k);
  }

  lemma CoordinateMoves(s: State, k: nat, now: Now, allowed: bool, sameDay: bool, e: Event)
    requires StoreInv(s) && k in s.requests
    ensures var (t, r, result) := Coordinate(s, s.requests[k], now, allowed, sameDay);
            && t.requests == s.requests
            && (result.Full? || result.CapacityDenied? || result.Booked? ==> Moves(s.requests[k], Stored(r), e, k))
  {
    var q := s.requests[k];
    assert RequestInv(q);
    if ReadyToCoordinate(q) {
      TakeSlotMoves(Prepared(s, q.proposed.value), q, q.proposed.value, e, k);
    }
  }

  lemma BookLeads(s: State, k: nat, now: Now, allowed: bool, e: Event, id: nat) returns (rs: seq<Request>)
    requires StoreInv(s) && k in s.requests && id in BookDate(s, k, now, allowed).requests
    ensures Leads(s, BookDate(s, k, now, allowed), e, id, rs)
  {
    CoordinateMoves(s, k, now, allowed, false, e);
    var (t, r, result) := Coordinate(s, s.requests[k], now, allowed, false);
    if result.Full? || result.CapacityDenied? || result.Booked? {
      rs := SaveLeads(s, t, k, r, e, id);
    } else {
      rs := [s.requests[id]];
    }
  }

  lemma TailLeads(s: State, k: nat, now: Now, allowed: bool, e: Event, id: nat) returns (rs: seq<Request>)
    requires StoreInv(s) && k in s.requests && id in s.requests
    ensures Leads(s, Tail(s, k, now, allowed), e, id, rs)
  {
    var s2 := OfferDate(s, k, now);
    OfferDateKeeps(s, k, now);
    OfferKeepsIds(s, k, now, id);
    var offer := OfferLeads(s, k, now, e, id);
    BookKeepsIds(s2, k, now, allowed, id);
    var book := BookLeads(s2, k, now, allowed, e, id);
    Join(s, s2, Tail(s, k, now, allowed), e, id, offer, book);
    rs := offer + book[1..];
  }

  lemma OfferKeepsIds(s: State, k: nat, now: Now, id: nat)
    requires k in s.requests
    ensures id in OfferDate(s, k, now).requests <==> id in s.requests
  {
    ProposeKeepsRequests(s, s.requests[k], now);
  }

  lemma BookKeepsIds(s: State, k: nat, now: Now, allowed: bool, id: nat)
    requires k in s.requests
    ensures id in BookDate(s, k, now, allowed).requests <==> id in s.requests
  {
    CoordinateKeepsRequests(s, s.requests[k], now, allowed, false);
  }

  lemma FinishPlanLeads(s: State, e: Event, id: nat) returns (rs: seq<Request>)
    requires StoreInv(s) && e.PlanFinished? && id in Step(s, e).requests
    ensures Leads(s, Step(s, e), e, id, rs)
  {
    var o := ExecuteAll(s, e.phone, e.cmds, e.now, e.time, None);
    assert e.cmds[0..] == e.cmds;
    if !Fresh(s, e.expected) || o.Failed? {
      rs := [s.requests[id]];
    } else {
      ExecuteAllKeeps(s, e.phone, e.cmds, e.now, e.time, None);
      if o.handoff || o.request.None? || o.request.value !in o.state.requests {
        rs := ExecuteAllLeads(s, e, 0, None, id);
      } else {
        var k := o.request.value;
        OfferKeepsIds(o.state, k, e.now, id);
        BookKeepsIds(OfferDate(o.state, k, e.now), k, e.now, e.allowed, id);
        var first := ExecuteAllLeads(s, e, 0, None, id);
        var tail := TailLeads(o.state, k, e.now, e.allowed, e, id);
        Join(s, o.state, Step(s, e), e, id, first, tail);
        rs := first + tail[1..];
      }
    }
  }

  lemma RetryOfferLeads(s: State, e: Event, id: nat) returns (rs: seq<Request>)
    requires StoreInv(s) && e.WaitlistTick? && e.id in s.requests && id in s.requests
    requires var r := s.requests[e.id]; r.status == WaitingCapacity && r.proposed.None?
    ensures Leads(s, Retry(s, e.id, e.now, e.allowed), e, id, rs)
  {
    var r := s.requests[e.id];
    assert RequestInv(r);
    rs := [s.requests[id]];
    ProposeKeeps(s, r, e.now);
    ProposalDayIsLeast(e.now, r.earliest);
    var (t, date) := Propose(s, r, e.now);
    if date.Some? { rs := ProposedLeads(s, t, e.id, date, e, id); }
  }

  lemma RetryBookLeads(s: State, e: Event, id: nat) returns (rs: seq<Request>)
    requires StoreInv(s) && e.WaitlistTick? && e.id in s.requests && id in s.requests
    requires var r := s.requests[e.id]; r.status == WaitingCapacity && r.proposed.Some?
    ensures Leads(s, Retry(s, e.id, e.now, e.allowed), e, id, rs)
  {
    rs := [s.requests[id]];
    CoordinateMoves(s, e.id, e.now, e.allowed, false, e);
    var (t, q, result) := Coordinate(s, s.requests[e.id], e.now, e.allowed, false);
    if result.Booked? { rs := SaveLeads(s, t, e.id, q, e, id); }
  }

  lemma RetryLeads(s: State, e: Event, id: nat) returns (rs: seq<Request>)
    requires StoreInv(s) && e.WaitlistTick? && id in Retry(s, e.id, e.now, e.allowed).requests
    ensures Leads(s, Retry(s, e.id, e.now, e.allowed), e, id, rs)
  {
    RetryAddsNone(s, e.id, e.now, e.allowed, id);
    if e.id !in s.requests || s.requests[e.id].status != WaitingCapacity {
      rs := [s.requests[id]];
    } else if s.requests[e.id].proposed.None? {
      rs := RetryOfferLeads(s, e, id);
    } else {
      rs := RetryBookLeads(s, e, id);
    }
  }

  lemma RetryAddsNone(s: State, k: nat, now: Now, allowed: bool, id: nat)
    requires id in Retry(s, k, now, allowed).requests
    ensures id in s.requests
  {
    if k in s.requests {
      ProposeKeepsRequests(s, s.requests[k], now);
      CoordinateKeepsRequests(s, s.requests[k], now, allowed, false);
    }
  }

  lemma AdminBookLeads(s: State, e: Event, id: nat) returns (rs: seq<Request>)
    requires StoreInv(s) && e.AdminCoordinates? && id in Step(s, e).requests
    ensures Leads(s, Step(s, e), e, id, rs)
  {
    if e.id in s.requests && s.requests[e.id].version == e.version
       && Coordinate(s, s.requests[e.id], e.now, e.allowed, e.sameDay).2.Booked? {
      CoordinateMoves(s, e.id, e.now, e.allowed, e.sameDay, e);
      var (t, r, result) := Coordinate(s, s.requests[e.id], e.now, e.allowed, e.sameDay);
      rs := SaveLeads(s, t, e.id, r, e, id);
    } else {
      rs := [s.requests[id]];
    }
  }

  /** Every transaction is, for every request, a path of moves. */
  lemma StepLeads(s: State, e: Event, id: nat) returns (rs: seq<Request>)
    requires StoreInv(s) && id in Step(s, e).requests
    ensures Leads(s, Step(s, e), e, id, rs)
  {
    match e
    case PlanFinished(_, _, _, _, _, _) => rs := FinishPlanLeads(s, e, id);
    case WaitlistTick(_, _, _) => rs := RetryLeads(s, e, id);
    case AdminCoordinates(_, _, _, _, _) => rs := AdminBookLeads(s, e, id);
    case CapacitySet(_, _) => rs := [s.requests[id]];
    case CapacityAnswered(_, _) => rs := [s.requests[id]];
    case OutsideTown(_) => rs := RejectLeads(s, e, id);
    case PhotoReceived(_, _, _) => rs := PhotoLeads(s, e, id);
    case TurnFailed(_) => rs := HandOverLeads(s, e, id);
    case AdminCompletes(_, _) => rs := CompleteLeads(s, e, id);
    case AdminResumes(_, _) => rs := ResumeLeads(s, e, id);
  }

  // The transactions that save one request with a new status.

  lemma RejectLeads(s: State, e: Event, id: nat) returns (rs: seq<Request>)
    requires StoreInv(s) && e.OutsideTown? && id in RejectOutside(s, e.id).requests
    ensures Leads(s, RejectOutside(s, e.id), e, id, rs)
  {
    if RejectOutside(s, e.id) == s {
      rs := [s.requests[id]];
    } else {
      assert RequestInv(s.requests[e.id]);
      rs := OneSave(s, e.id, s.requests[e.id].(status := Status.Rejected), e, id);
    }
  }

  lemma HandOverLeads(s: State, e: Event, id: nat) returns (rs: seq<Request>)
    requires StoreInv(s) && e.TurnFailed? && id in HandOver(s, e.id).requests
    ensures Leads(s, HandOver(s, e.id), e, id, rs)
  {
    if HandOver(s, e.id) == s {
      rs := [s.requests[id]];
    } else {
      assert RequestInv(s.requests[e.id]);
      rs := OneSave(s, e.id, s.requests[e.id].(status := Human), e, id);
    }
  }

  lemma CompleteLeads(s: State, e: Event, id: nat) returns (rs: seq<Request>)
    requires StoreInv(s) && e.AdminCompletes? && id in AdminComplete(s, e.id, e.version).requests
    ensures Leads(s, AdminComplete(s, e.id, e.version), e, id, rs)
  {
    if AdminComplete(s, e.id, e.version) == s {
      rs := [s.requests[id]];
    } else {
      assert RequestInv(s.requests[e.id]);
      rs := OneSave(s, e.id, s.requests[e.id].(status := Closed), e, id);
    }
  }

  lemma ResumeLeads(s: State, e: Event, id: nat) returns (rs: seq<Request>)
    requires StoreInv(s) && e.AdminResumes? && id in AdminResume(s, e.id, e.version).requests
    ensures Leads(s, AdminResume(s, e.id, e.version), e, id, rs)
  {
    if AdminResume(s, e.id, e.version) == s {
      rs := [s.requests[id]];
    } else {
      assert RequestInv(s.requests[e.id]);
      rs := OneSave(s, e.id, s.requests[e.id].(status := Collecting), e, id);
    }
  }

  lemma PhotoLeads(s: State, e: Event, id: nat) returns (rs: seq<Request>)
    requires StoreInv(s) && e.PhotoReceived? && id in AddPhoto(s, e.id, e.phone, e.photo).requests
    ensures Leads(s, AddPhoto(s, e.id, e.phone, e.photo), e, id, rs)
  {
    if AddPhoto(s, e.id, e.phone, e.photo) == s {
      rs := [s.requests[id]];
    } else {
      var r := s.requests[e.id];
      assert RequestInv(r);
      rs := OneSave(s, e.id, r.(photos := if e.photo in r.photos then r.photos else r.photos + [e.photo],
                                status := if |r.parties| == 1 then Available else r.status), e, id);
    }
  }

  lemma OneSave(s: State, k: nat, q: Request, e: Event, id: nat) returns (rs: seq<Request>)
    requires k in s.requests && id in s.requests && RequestInv(s.requests[k])
    requires var r := s.requests[k];
             && q == r.(status := q.status, photos := q.photos)
             && (q.status == WaitingCapacity ==> |r.parties| == 2)
             && (IsBooked(q) ==> IsBooked(r)) && (IsBooked(r) ==> BookedMoves(r, Stored(q), e, k))
    ensures Leads(s, Save(s, k, q), e, id, rs)
  {
    StatusMoves(s.requests[k], q, e, k);
    rs := SaveLeads(s, s, k, q, e, id);
  }

  lemma PlanKeepsIds(s: State, e: Event, id: nat)
    requires e.PlanFinished? && id in s.requests
    ensures id in Step(s, e).requests
  {
    var o := ExecuteAll(s, e.phone, e.cmds, e.now, e.time, None);
    assert e.cmds[0..] == e.cmds;
    if o.Ok? {
      ExecuteAllKeepsIds(s, e, 0, None, id);
      if o.request.Some? && o.request.value in o.state.requests {
        OfferKeepsIds(o.state, o.request.value, e.now, id);
        BookKeepsIds(OfferDate(o.state, o.request.value, e.now), o.request.value, e.now, e.allowed, id);
      }
    }
  }

  lemma RetryKeepsIds(s: State, k: nat, now: Now, allowed: bool, id: nat)
    requires id in s.requests
    ensures id in Retry(s, k, now, allowed).requests
  {
    if k in s.requests {
      ProposeKeepsRequests(s, s.requests[k], now);
      CoordinateKeepsRequests(s, s.requests[k], now, allowed, false);
    }
  }

  lemma ProposeKeepsRequests(s: State, r: Request, now: Now)
    ensures Propose(s, r, now).0.requests == s.requests
  {}

  lemma CoordinateKeepsRequests(s: State, r: Request, now: Now, allowed: bool, sameDay: bool)
    ensures Coordinate(s, r, now, allowed, sameDay).0.requests == s.requests
  {}

  lemma AdminBookKeepsIds(s: State, k: nat, version: nat, now: Now, allowed: bool, sameDay: bool, id: nat)
    requires id in s.requests
    ensures id in AdminBook(s, k, version, now, allowed, sameDay).requests
  {}

  lemma ResolveKeepsRequests(s: State, d: Option<Date>, yes: bool)
    ensures Resolve(s, d, yes).requests == s.requests
  {}

  /** No transaction deletes a request. */
  lemma StepKeepsIds(s: State, e: Event, id: nat)
    requires id in s.requests
    ensures id in Step(s, e).requests
  {
    match e
    case PlanFinished(_, _, _, _, _, _) => PlanKeepsIds(s, e, id);
    case WaitlistTick(k, now, allowed) => RetryKeepsIds(s, k, now, allowed, id);
    case AdminCoordinates(k, version, now, allowed, sameDay) =>
      AdminBookKeepsIds(s, k, version, now, allowed, sameDay, id);
    case CapacityAnswered(asked, yes) => ResolveKeepsRequests(s, asked, yes);
    case _ =>
  }

  lemma {:induction false} ExecuteAllKeepsIds(s: State, e: Event, j: nat, request: Option<nat>, id: nat)
    requires e.PlanFinished? && j <= |e.cmds| && id in s.requests
    ensures var o := ExecuteAll(s, e.phone, e.cmds[j..], e.now, e.time, request); o.Ok? ==> id in o.state.requests
    decreases |e.cmds| - j
  {
    if j == |e.cmds| {
    } else {
      var o := Execute(s, e.phone, e.cmds[j].0, e.cmds[j].1, e.now, e.time);
      if o.Ok? {
        ExecuteNeverDeletes(s, e, j, id);
        assert e.cmds[j..][1..] == e.cmds[j + 1..];
        ExecuteAllKeepsIds(o.state, e, j + 1, if o.request.Some? then o.request else request, id);
      }
    }
  }
}
