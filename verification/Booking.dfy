/** The booking store (src/infrastructure/store.ts) and the transactions that
    change it: running a customer's plan, the waitlist pass and the admin
    routes. A State is the committed database between two transactions. */
module Booking {
  import opened Types
  import opened Policies
  import opened Commands

  datatype Run = Run(capacity: int, open: bool)

  datatype Decision = Pending | Approved | Denied

  /** requests by number, one run per Tuesday, and the extra-slot approvals by
      date and requested capacity; standard is the configured capacity. */
  datatype State = State(
    standard: int, last: nat,
    requests: map<nat, Request>,
    runs: map<Date, Run>,
    approvals: map<(Date, int), Decision>)

  predicate Books(r: Request, d: Date) {
    r.runDate == Some(d) && r.status in {Coordinated, Closed}
  }

  predicate Holds(r: Request, d: Date) {
    r.proposed == Some(d) && r.status == AwaitingApproval
  }

  function BookedOn(s: State, d: Date): set<nat> {
    set id | id in s.requests && Books(s.requests[id], d)
  }

  function HeldOn(s: State, d: Date): set<nat> {
    set id | id in s.requests && Holds(s.requests[id], d)
  }

  // ------------------------------------------------------------------- saving

  /** Parties come back from the database ordered by role. */
  function ByRole(ps: seq<Party>): seq<Party> {
    if |ps| == 2 && ps[0].role == Receiver then [ps[1], ps[0]] else ps
  }

  function Stored(r: Request): Request {
    r.(version := r.version + 1, parties := ByRole(r.parties))
  }

  function Save(s: State, id: nat, r: Request): State {
    s.(requests := s.requests[id := Stored(r)])
  }

  // ----------------------------------------------------------------- capacity

  function Prepared(s: State, d: Date): State {
    if d in s.runs then s else s.(runs := s.runs[d := Run(s.standard, true)])
  }

  datatype Ask = AskPending | AskDenied | AskLimit

  /** askForCapacityApproval: one slot more than now, asked for once. */
  function AskFor(s: State, d: Date, capacity: int): (State, Ask) {
    if capacity >= MAX_CAPACITY then (s, AskLimit)
    else if (d, capacity + 1) !in s.approvals then
      (s.(approvals := s.approvals[(d, capacity + 1) := Pending]), AskPending)
    else (s, if s.approvals[(d, capacity + 1)] == Denied then AskDenied else AskPending)
  }

  /** proposeScheduleDate. */
  function Propose(s: State, r: Request, now: Now): (State, Option<Date>) {
    var d := ProposalDay(now, r.earliest);
    var s1 := Prepared(s, d);
    var run := s1.runs[d];
    if !run.open || (d == NextTuesday(now) && SameDay(now)) then (s1, None)
    else if |BookedOn(s1, d)| >= run.capacity then (AskFor(s1, d, run.capacity).0, None)
    else if |BookedOn(s1, d)| + |HeldOn(s1, d)| >= run.capacity then (s1, None)
    else (s1, Some(d))
  }

  datatype Coordination = NotReady | IsSameDay | Full | CapacityDenied | Booked

  /** Book the date when its run is open and has a free slot. */
  function TakeSlot(s: State, r: Request, d: Date): (State, Request, Coordination)
    requires d in s.runs
  {
    var run := s.runs[d];
    if !run.open then (s, r.(status := WaitingCapacity), Full)
    else if |BookedOn(s, d)| >= run.capacity then
      var (s2, ask) := AskFor(s, d, run.capacity);
      (s2, r.(status := WaitingCapacity), if ask == AskDenied then CapacityDenied else Full)
    else (s, r.(status := Coordinated, runDate := Some(d), proposed := None), Booked)
  }

  /** coordinate: the new store, the request as it stands in memory, the result. */
  function Coordinate(
    s: State, r: Request, now: Now, allowed: bool, adminSameDay: bool): (State, Request, Coordination) {
    if !ReadyToCoordinate(r) || !allowed then (s, r, NotReady)
    else
      var d := r.proposed.value;
      if SameDay(now) && NextTuesday(now) == d && !adminSameDay then (s, r, IsSameDay)
      else TakeSlot(Prepared(s, d), r, d)
  }

  /** The pending approvals an admin's answer may mean. */
  function PendingFor(s: State, d: Option<Date>): set<(Date, int)> {
    set k | k in s.approvals && s.approvals[k] == Pending && (d.None? || k.0 == d.value)
  }

  lemma OnlyOne<T>(s: set<T>)
    requires |s| == 1
    ensures exists k :: k in s
    ensures forall a, b :: a in s && b in s ==> a == b
  {
    var k :| k in s;
    assert |s - {k}| == 0;
    assert s == {k};
  }

  /** resolveCapacityApproval: it acts only when exactly one approval is meant,
      and a yes needs the run to be open. */
  function Resolve(s: State, d: Option<Date>, yes: bool): State {
    var pending := PendingFor(s, d);
    if |pending| != 1 then s
    else
      OnlyOne(pending);
      var k :| k in pending;
      if !yes then s.(approvals := s.approvals[k := Denied])
      else if k.0 !in s.runs || !s.runs[k.0].open || k.1 > MAX_CAPACITY then s
      else s.(runs := s.runs[k.0 := s.runs[k.0].(capacity := k.1)], approvals := s.approvals[k := Approved])
  }

  /** The admin's manual capacity: never below what is booked or offered, and
      it settles the pending approvals it covers. */
  function SetCapacity(s: State, d: Date, capacity: int): State {
    if !Tuesday(d) || !(1 <= capacity <= MAX_CAPACITY) then s
    else if |BookedOn(s, d) + HeldOn(s, d)| > capacity then s
    else
      var open := if d in s.runs then s.runs[d].open else true;
      s.(runs := s.runs[d := Run(capacity, open)],
         approvals := map k | k in s.approvals ::
           if k.0 == d && s.approvals[k] == Pending && k.1 <= capacity then Approved else s.approvals[k])
  }

  // ------------------------------------------------------------ running a plan

  /** The statuses whose requests a context lists: the active ones, and for a
      correction also a rejected one. */
  predicate Visible(r: Request) {
    r.status !in {Closed, Cancelled}
  }

  /** What one command does to the store; request is the one to go on with. */
  datatype Outcome = Failed | Ok(state: State, request: Option<nat>, handoff: bool)

  function Targeted(s: State, id: nat, phone: Phone, cmd: Command, rd: Reading, now: Now, time: int): Outcome {
    if id !in s.requests || !Visible(s.requests[id]) then Failed
    else match Applied(s.requests[id], phone, cmd, rd, now, time)
      case Refused => Failed
      case Unsaved => Ok(s, None, false)
      case Changed(r, handoff) => Ok(Save(s, id, r), Some(id), handoff)
  }

  /** A new request is stored when it is created, stored again when it is a
      self-transfer, and stored once more by the plan. */
  function Create(s: State, r: Request): State {
    var id := s.last + 1;
    var s1 := Save(s.(last := id), id, r);
    if r.representsBoth then Save(s1, id, s1.requests[id]) else s1
  }

  /** A similar open request is answered with instead, unless the message says
      this is a new one. */
  function OpenVerdict(s: State, r: Request, rd: Reading): (o: Outcome)
    ensures o.Ok?
  {
    if rd.duplicate.Some? && rd.duplicate.value in s.requests && !rd.newRequestWords then
      Ok(Save(s, rd.duplicate.value, s.requests[rd.duplicate.value]), rd.duplicate, false)
    else
      var s1 := Create(s, r);
      Ok(Save(s1, s1.last, s1.requests[s1.last]), Some(s1.last), false)
  }

  function Open(s: State, phone: Phone, cmd: Command, rd: Reading, time: int): Outcome
    requires cmd.Donate? || cmd.ReceiveFromDonor?
  {
    match Opened(phone, cmd, rd, time)
    case Refused => Failed
    case Unsaved => Ok(s, None, false)
    case Changed(r, _) => OpenVerdict(s, r, rd)
  }

  /** A match may be claimed while its request is open to receivers and the
      sender is not on it. */
  predicate Offered(r: Request, phone: Phone) {
    && r.status in {Collecting, Available, AwaitingApproval}
    && !HasRole(r.parties, Receiver) && !HasPhone(r.parties, phone)
  }

  function Claim(s: State, number: nat, phone: Phone, rd: Reading): Outcome {
    if number !in s.requests || !Offered(s.requests[number], phone) then Failed
    else match Claimed(s.requests[number], phone, rd)
      case Changed(r, _) => Ok(Save(s, number, r), Some(number), false)
      case _ => Failed
  }

  /** Escalation by a sender who has no request: a borderline area opens one. */
  function Borderline(s: State, phone: Phone, borderline: bool): Outcome {
    if !borderline then Ok(s, None, true)
    else
      var r := Request(0, Collecting, Donation, false, false, [], [NewParty(Donor, phone, false, 0)], [],
                       None, None, None, map[]);
      var s1 := Create(s, r);
      Ok(Save(s1, s1.last, s1.requests[s1.last].(status := Human)), Some(s1.last), true)
  }

  function Execute(s: State, phone: Phone, cmd: Command, rd: Reading, now: Now, time: int): Outcome {
    match cmd
    case AskStatus => Ok(s, None, false)
    case Seek(_) => Ok(s, None, false)
    case Donate(_, _, _, _, _, _) => Open(s, phone, cmd, rd, time)
    case ReceiveFromDonor(_, _) => Open(s, phone, cmd, rd, time)
    case Interest(number) => Claim(s, number, phone, rd)
    case _ =>
      if rd.target.Some? then Targeted(s, rd.target.value, phone, cmd, rd, now, time)
      else if cmd.Escalate? then Borderline(s, phone, cmd.borderline)
      else if cmd.Next? then Ok(s, None, false)
      else Failed
  }

  predicate Ends(s: State, request: Option<nat>, handoff: bool) {
    || handoff
    || (&& request.Some? && request.value in s.requests
        && s.requests[request.value].status == Status.Rejected)
  }

  /** The command loop of finish: it stops at a handoff or a rejection and
      remembers the last request a command returned. */
  function ExecuteAll(s: State, phone: Phone, cmds: seq<Planned>, now: Now, time: int, request: Option<nat>): Outcome
    decreases |cmds|
  {
    if cmds == [] then Ok(s, request, false)
    else match Execute(s, phone, cmds[0].0, cmds[0].1, now, time)
      case Failed => Failed
      case Ok(s1, r1, handoff) =>
        var current := if r1.Some? then r1 else request;
        if Ends(s1, current, handoff) then Ok(s1, current, handoff)
        else ExecuteAll(s1, phone, cmds[1..], now, time, current)
  }

  /** A ready request without a proposal, or with one that has passed. */
  predicate NeedsProposal(r: Request, now: Now) {
    && r.status != Coordinated && ReadyToProposeSchedule(r)
    && (r.proposed.None? || r.proposed.value < NextTuesday(now))
  }

  /** The proposal half of the tail of finish. */
  function OfferDate(s: State, id: nat, now: Now): (t: State)
    requires id in s.requests
    ensures id in t.requests
  {
    var r := s.requests[id];
    if NeedsProposal(r, now) then
      var (s1, date) := Propose(s, r, now);
      if date.None? then Save(s1, id, r.(status := WaitingCapacity))
      else Save(s1, id, r.(proposed := date, status := AwaitingApproval,
                           parties := if r.proposed != date then ClearedDates(r.parties) else r.parties))
    else s
  }

  /** The booking half of the tail of finish. */
  function BookDate(s: State, id: nat, now: Now, allowed: bool): State
    requires id in s.requests
  {
    var (s1, r1, result) := Coordinate(s, s.requests[id], now, allowed, false);
    if result.Full? || result.CapacityDenied? || result.Booked? then Save(s1, id, r1) else s1
  }

  function Tail(s: State, id: nat, now: Now, allowed: bool): State
    requires id in s.requests
  {
    BookDate(OfferDate(s, id, now), id, now, allowed)
  }

  /** A stale plan names a version some request no longer has. */
  predicate Fresh(s: State, expected: map<nat, nat>) {
    forall id :: id in expected ==> id in s.requests && s.requests[id].version == expected[id]
  }

  function FinishPlan(s: State, phone: Phone, expected: map<nat, nat>, cmds: seq<Planned>,
                      now: Now, time: int, allowed: bool): State {
    if !Fresh(s, expected) then s
    else Conclude(s, ExecuteAll(s, phone, cmds, now, time, None), now, allowed)
  }

  /** The end of finish, after its command loop: everything rolled back, or the
      tail for the last request. */
  function Conclude(s: State, o: Outcome, now: Now, allowed: bool): State {
    match o
    case Failed => s
    case Ok(s1, request, handoff) =>
      if handoff || request.None? || request.value !in s1.requests then s1
      else Tail(s1, request.value, now, allowed)
  }

  // --------------------------------------------------- the other transactions

  /** A town outside the service area rejects an open request. */
  function RejectOutside(s: State, id: nat): State {
    if id !in s.requests || Protected(s.requests[id]) then s
    else Save(s, id, s.requests[id].(status := Status.Rejected))
  }

  /** linkPhoto and the save after it: only the donor of an open request. */
  function AddPhoto(s: State, id: nat, phone: Phone, photo: string): State {
    if id !in s.requests then s
    else
      var r := s.requests[id];
      if Protected(r) || !(exists p :: p in r.parties && p.role == Donor && p.phone == phone) then s
      else
        var photos := if photo in r.photos then r.photos else r.photos + [photo];
        Save(s, id, r.(photos := photos, status := if |r.parties| == 1 then Available else r.status))
  }

  /** finishFault and the second finishUnclear hand the request to a human. */
  function HandOver(s: State, id: nat): State {
    if id !in s.requests || !Visible(s.requests[id]) then s
    else Save(s, id, s.requests[id].(status := Human))
  }

  /** One step of the waitlist loop. */
  function Retry(s: State, id: nat, now: Now, allowed: bool): State {
    if id !in s.requests || s.requests[id].status != WaitingCapacity then s
    else
      var r := s.requests[id];
      if r.proposed.None? then
        var (s1, date) := Propose(s, r, now);
        if date.None? then s1
        else Save(s1, id, r.(proposed := date, status := AwaitingApproval, parties := ClearedDates(r.parties)))
      else
        var (s1, r1, result) := Coordinate(s, r, now, allowed, false);
        if result.Booked? then Save(s1, id, r1) else s1
  }

  /** The admin route commits only a booking; any other result is thrown. */
  function AdminBook(s: State, id: nat, version: nat, now: Now, allowed: bool, adminSameDay: bool): State {
    if id !in s.requests || s.requests[id].version != version then s
    else
      var (s1, r1, result) := Coordinate(s, s.requests[id], now, allowed, adminSameDay);
      if result.Booked? then Save(s1, id, r1) else s
  }

  function AdminComplete(s: State, id: nat, version: nat): State {
    if id !in s.requests || s.requests[id].version != version || s.requests[id].status != Coordinated then s
    else Save(s, id, s.requests[id].(status := Closed))
  }

  function AdminResume(s: State, id: nat, version: nat): State {
    if id !in s.requests || s.requests[id].version != version || s.requests[id].status != Human then s
    else Save(s, id, s.requests[id].(status := Collecting))
  }

  datatype Event =
    | PlanFinished(phone: Phone, expected: map<nat, nat>, cmds: seq<Planned>, now: Now, time: int, allowed: bool)
    | OutsideTown(id: nat)
    | PhotoReceived(id: nat, phone: Phone, photo: string)
    | TurnFailed(id: nat)
    | WaitlistTick(id: nat, now: Now, allowed: bool)
    | AdminCoordinates(id: nat, version: nat, now: Now, allowed: bool, sameDay: bool)
    | AdminCompletes(id: nat, version: nat)
    | AdminResumes(id: nat, version: nat)
    | CapacitySet(date: Date, capacity: int)
    | CapacityAnswered(asked: Option<Date>, yes: bool)

  function Step(s: State, e: Event): State {
    match e
    case PlanFinished(phone, expected, cmds, now, time, allowed) =>
      FinishPlan(s, phone, expected, cmds, now, time, allowed)
    case OutsideTown(id) => RejectOutside(s, id)
    case PhotoReceived(id, phone, photo) => AddPhoto(s, id, phone, photo)
    case TurnFailed(id) => HandOver(s, id)
    case WaitlistTick(id, now, allowed) => Retry(s, id, now, allowed)
    case AdminCoordinates(id, version, now, allowed, sameDay) => AdminBook(s, id, version, now, allowed, sameDay)
    case AdminCompletes(id, version) => AdminComplete(s, id, version)
    case AdminResumes(id, version) => AdminResume(s, id, version)
    case CapacitySet(date, capacity) => SetCapacity(s, date, capacity)
    case CapacityAnswered(asked, yes) => Resolve(s, asked, yes)
  }

  function After(s: State, es: seq<Event>): State
    decreases |es|
  {
    if es == [] then s else After(Step(s, es[0]), es[1..])
  }
}
