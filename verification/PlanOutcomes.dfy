/** Which commands of a plan run, by the photo gate and the filter, and what comes
    of the plan: a rejection, a new offer, or a booking. */
module PlanOutcomes {
  import opened Types
  import opened Policies
  import opened Commands
  import opened Booking
  import opened Lifecycle
  import opened BookingRuns
  import opened BookingDates
  import opened PlanGate
  import opened PlanEffects
  import opened Reorder
  import CommandAnswers
  import PartyAnswers

  // -------------------------------------------------------------- the photo gate

  /** An open donation nobody receives yet, of which no photo has come. */
  predicate NeedsPhoto(r: Request) {
    && r.origin == Donation && r.photos == []
    && (exists i :: 0 <= i < |r.parties| && r.parties[i].role == Donor)
    && forall i :: 0 <= i < |r.parties| ==> r.parties[i].role != Receiver
  }

  predicate AboutPhoto(s: State, request: Option<nat>) {
    request.Some? && request.value in s.requests && NeedsPhoto(s.requests[request.value])
  }

  /** The command has to wait for the photo: it tells about items while some
      request waits for one, or it comes after a request that needs one and is
      neither about names and places nor about a duplicate. A plan that names the
      other side is a handoff, which needs no photo. */
  predicate WaitsForIt(s: State, cmd: Command, gate: Gate, request: Option<nat>) {
    && !gate.linking
    && ((cmd.ItemFacts? && gate.waiting) || (AboutPhoto(s, request) && !cmd.Details? && !cmd.ClarifyDuplicate?))
  }

  /** Right after a donation the photo comes first, unless the same message holds
      the donor's details. */
  predicate PhotoFirst(s: State, cmd: Command, gate: Gate, made: Option<nat>) {
    cmd.Donate? && AboutPhoto(s, made) && !gate.linking && !gate.donorDetails
  }

  lemma GateDecides(s: State, cmd: Command, gate: Gate, request: Option<nat>)
    ensures StopsBefore(s, cmd, gate, request) <==> WaitsForIt(s, cmd, gate, request)
    ensures StopsAfter(s, cmd, gate, request) <==> PhotoFirst(s, cmd, gate, request)
  {}

  /** One turn of the gated loop. */
  lemma GatedTurn(s: State, phone: Phone, c: Planned, rest: seq<Planned>, gate: Gate, now: Now, time: int,
                  request: Option<nat>)
    ensures var o := Execute(s, phone, c.0, c.1, now, time);
            var current := if o.Ok? && o.request.Some? then o.request else request;
            RunGated(s, phone, [c] + rest, gate, now, time, request) ==
              if WaitsForIt(s, c.0, gate, request) then Ok(s, request, false)
              else if o.Failed? then o
              else if PhotoFirst(o.state, c.0, gate, o.request) || Stops(o.state, current, o.handoff)
                then Ok(o.state, current, o.handoff)
              else RunGated(o.state, phone, rest, gate, now, time, current)
  {
    assert ([c] + rest)[0] == c && ([c] + rest)[1..] == rest;
    GateDecides(s, c.0, gate, request);
    var o := Execute(s, phone, c.0, c.1, now, time);
    if o.Ok? { GateDecides(o.state, c.0, gate, o.request); }
  }

  /** What the gate knows of the plan and of the context. */
  lemma GateExactly(s: State, p: Plan, cmds: seq<Planned>)
    ensures var gate := GateOf(s, p, cmds);
            && (gate.waiting <==>
                  exists id :: id in p.context && id in s.requests && NeedsPhoto(s.requests[id])
                    && s.requests[id].status in {Collecting, Available, AwaitingApproval, WaitingCapacity})
            && (gate.linking <==>
                  exists i :: 0 <= i < |p.cmds| &&
                    var cmd := p.cmds[i].0;
                    cmd.Counterparty? || cmd.CounterpartyCandidate? || cmd.ConfirmCounterparty?)
            && (gate.donorDetails <==>
                  exists i :: 0 <= i < |cmds| && cmds[i].0.Details? && cmds[i].0.role == Some(Donor))
  {
    forall id | id in p.context && id in s.requests ensures PhotoGate(s.requests[id]) <==> NeedsPhoto(s.requests[id]) {}
  }

  /** A plan that names the other side runs as if there were no gate. */
  lemma {:induction false} HandoffIsNotGated(
    s: State, phone: Phone, cmds: seq<Planned>, gate: Gate, now: Now, time: int, request: Option<nat>)
    requires gate.linking
    ensures RunGated(s, phone, cmds, gate, now, time, request) == ExecuteAll(s, phone, cmds, now, time, request)
    decreases |cmds|
  {
    if cmds == [] {
    } else {
      var o := Execute(s, phone, cmds[0].0, cmds[0].1, now, time);
      if o.Ok? {
        HandoffIsNotGated(
          o.state, phone, cmds[1..], gate, now, time, if o.request.Some? then o.request else request);
      }
    }
  }

  /** While a request waits for its photo, nothing is told about items. */
  lemma {:induction false} NoItemsBeforePhoto(
    s: State, phone: Phone, cmds: seq<Planned>, gate: Gate, now: Now, time: int, request: Option<nat>)
    returns (n: nat)
    requires gate.waiting && !gate.linking
    ensures n <= |cmds|
    ensures RunGated(s, phone, cmds, gate, now, time, request) == ExecuteAll(s, phone, cmds[..n], now, time, request)
    ensures forall i :: 0 <= i < n ==> !cmds[i].0.ItemFacts?
    decreases |cmds|
  {
    if cmds == [] || StopsBefore(s, cmds[0].0, gate, request) {
      n := 0;
    } else {
      var o := Execute(s, phone, cmds[0].0, cmds[0].1, now, time);
      assert cmds[..1] == [cmds[0]];
      n := 1;
      if o.Ok? {
        var current := if o.request.Some? then o.request else request;
        if StopsAfter(o.state, cmds[0].0, gate, o.request) {
          DonationNeverHandsOff(s, phone, cmds[0].0, cmds[0].1, now, time);
          assert [cmds[0]][1..] == [];
        } else if !Ends(o.state, current, o.handoff) {
          var k := NoItemsBeforePhoto(o.state, phone, cmds[1..], gate, now, time, current);
          n := k + 1;
          assert cmds[..n][0] == cmds[0] && cmds[..n][1..] == cmds[1..][..k];
        }
      }
    }
  }

  // ------------------------------------------------------------------ the filter

  /** The sender's first side of the request the command numbers. */
  predicate SenderIs(s: State, p: Plan, ref: Option<nat>, role: Role) {
    && ref.Some? && ref.value in p.context && ref.value in s.requests
    && exists i :: 0 <= i < |s.requests[ref.value].parties|
         && s.requests[ref.value].parties[i].phone == p.phone && s.requests[ref.value].parties[i].role == role
         && forall j :: 0 <= j < i ==> s.requests[ref.value].parties[j].phone != p.phone
  }

  predicate LinksRequest(cs: seq<Planned>, ref: Option<nat>) {
    exists i :: 0 <= i < |cs| && cs[i].0.Counterparty? && cs[i].0.ref == ref
  }

  /** The plan itself links the request the details are about, and they are about
      the other side than the sender's. */
  predicate NotTheirs(s: State, p: Plan, c: Planned) {
    && c.0.Details? && c.0.role.Some?
    && LinksRequest(p.cmds, c.0.ref)
    && SenderIs(s, p, c.0.ref, if c.0.role == Some(Donor) then Receiver else Donor)
  }

  lemma ActorExactly(s: State, p: Plan, ref: Option<nat>, role: Role)
    ensures ActorRole(s, p.phone, p.context, ref) == Some(role) <==> SenderIs(s, p, ref, role)
  {
    if ref.Some? && ref.value in s.requests {
      var ps := s.requests[ref.value].parties;
      var k := FirstMine(ps, p.phone, None, false, 0);
      forall j | 0 <= j < |ps| ensures Mine(ps[j], p.phone, None) <==> ps[j].phone == p.phone {}
      if k.Some? { assert forall j :: 0 <= j < k.value ==> ps[j].phone != p.phone; }
    }
  }

  lemma {:induction false} WhereCounts<T>(cs: seq<T>, p: T -> bool, c: T)
    ensures multiset(Where(cs, p))[c] == if p(c) then multiset(cs)[c] else 0
  {
    if cs == [] {
    } else {
      WhereCounts(cs[1..], p, c);
      assert cs == [cs[0]] + cs[1..];
    }
  }

  lemma LinkedAnywhere(cs: seq<Planned>, ref: Option<nat>)
    ensures CreatedBefore(cs, ref, |cs|) <==> LinksRequest(cs, ref)
  {
    forall i | 0 <= i < |cs| ensures Creates(cs[i], ref) <==> cs[i].0.Counterparty? && cs[i].0.ref == ref {}
  }

  lemma OneOfTwo(a: Role, b: Role)
    ensures a == b || a == (if b == Donor then Receiver else Donor)
  {
    match a case Donor => case Receiver =>
  }

  lemma RunnableExactly(s: State, p: Plan, all: seq<Planned>, c: Planned)
    requires multiset(all) == multiset(p.cmds)
    ensures MayRun(s, p.phone, p.context, all, c) <==> !NotTheirs(s, p, c)
  {
    if c.0.Details? && c.0.role.Some? {
      SameCreations(all, p.cmds, c.0.ref);
      LinkedAnywhere(p.cmds, c.0.ref);
      var actor := ActorRole(s, p.phone, p.context, c.0.ref);
      ActorExactly(s, p, c.0.ref, if c.0.role == Some(Donor) then Receiver else Donor);
      if actor.Some? { OneOfTwo(actor.value, c.0.role.value); }
    }
  }

  /** Every command of the plan runs as often as the plan holds it, but those that
      state the other side's details in a plan that links it. */
  lemma ExecutableExactly(s: State, p: Plan, c: Planned)
    ensures multiset(Executable(s, p))[c] == if NotTheirs(s, p, c) then 0 else multiset(p.cmds)[c]
  {
    var ordered := Reordered(p.cmds);
    ReorderedIsPermutation(p.cmds);
    RunnableExactly(s, p, ordered, c);
    WhereCounts(ordered, Runnable(s, p.phone, p.context, ordered), c);
  }

  // ---------------------------------------------------------- a town outside the area

  /** Some details of the plan name a town outside the area. */
  predicate NamesOutsideTown(p: Plan) {
    exists i :: 0 <= i < |p.cmds| && p.cmds[i].0.Details? && Given(p.cmds[i].0.settlement)
      && !p.cmds[i].1.settlementIsStreet && p.cmds[i].1.region.Outside?
  }

  /** Such a plan runs none of its commands: it only rejects the request it is
      about. */
  lemma OutsideTownOnlyRejects(s: State, p: Plan)
    requires NamesOutsideTown(p) && Fresh(s, p.expected)
    ensures RunPlan(s, p) == if p.outsideTarget.Some? then RejectOutside(s, p.outsideTarget.value) else s
  {
    var i :| 0 <= i < |p.cmds| && p.cmds[i].0.Details? && Given(p.cmds[i].0.settlement)
             && !p.cmds[i].1.settlementIsStreet && p.cmds[i].1.region.Outside?;
    assert NamesOutside(p.cmds[i]);
  }

  /** Any other plan runs its commands, one that took a street for a town included. */
  lemma OtherPlansRun(s: State, p: Plan)
    requires !NamesOutsideTown(p) && Fresh(s, p.expected)
    ensures var cmds := Executable(s, p);
            RunPlan(s, p)
            == Conclude(s, RunGated(s, p.phone, cmds, GateOf(s, p, cmds), p.now, p.time, None), p.now, p.allowed)
  {
    forall i | 0 <= i < |p.cmds| ensures !NamesOutside(p.cmds[i]) {}
  }

  // --------------------------------------------------------------- the end of a plan

  /** A refused command undoes the whole plan, a human takes it over as it is, and
      otherwise the request it is about goes on to its offer and its booking. */
  lemma PlanEndsExactly(s: State, phone: Phone, expected: map<nat, nat>, cmds: seq<Planned>,
                        now: Now, time: int, allowed: bool)
    ensures var o := ExecuteAll(s, phone, cmds, now, time, None);
            var stale := exists id :: id in expected && (id !in s.requests || s.requests[id].version != expected[id]);
            FinishPlan(s, phone, expected, cmds, now, time, allowed) ==
              if stale || o.Failed? then s
              else if o.handoff || o.request.None? || o.request.value !in o.state.requests then o.state
              else Tail(o.state, o.request.value, now, allowed)
  {}

  /** A due request is offered its date in the tail, and not booked yet. */
  lemma TailOffersNew(s: State, id: nat, now: Now, allowed: bool)
    requires StoreInv(s) && id in s.requests && Due(s.requests[id], now) && !NoDateFree(s, s.requests[id], now)
    ensures OfferedAnew(s, Tail(s, id, now, allowed), id, ProposalDay(now, s.requests[id].earliest))
  {
    TailOffersExactly(s, id, now);
    NewDateOffered(s, id, now);
    NotAgreedStays(OfferDate(s, id, now), id, now, allowed);
  }

  lemma NotAgreedStays(t: State, id: nat, now: Now, allowed: bool)
    requires id in t.requests && forall d :: !Agreed(t.requests[id], d)
    ensures BookDate(t, id, now, allowed) == t
  {
    var r := t.requests[id];
    if r.proposed.Some? { assert !Agreed(r, r.proposed.value); }
    CoordinatesExactly(t, r, 0, now, allowed, false);
    CoordinateLeaves(t, r, now, allowed, false);
  }

  // --------------------------------------------------------------- the last approval

  /** Only the sender's approval of the offered date d is missing. */
  predicate OnlyMissing(r: Request, phone: Phone, d: Date, now: Now) {
    && ReadyToProposeSchedule(r) && r.runDate.None? && r.proposed == Some(d) && NextTuesday(now) <= d
    && HasPhone(r.parties, phone)
    && forall i :: 0 <= i < |r.parties| && r.parties[i].phone != phone ==> r.parties[i].scheduleDate == Some(d)
  }

  /** The plan of a message that approves date d of request id. */
  function Approval(phone: Phone, ref: Option<nat>, d: Date, rd: Reading, now: Now, allowed: bool): Event {
    PlanFinished(phone, map[], [(ApproveSchedule(ref, d), rd)], now, 0, allowed)
  }

  lemma LastApprovalAgrees(r: Request, phone: Phone, ref: Option<nat>, d: Date, rd: Reading, now: Now)
    requires OnlyMissing(r, phone, d, now) && rd.explicitApproval && rd.dateQuoted && Ordered(r.parties)
    ensures var v := Applied(r, phone, ApproveSchedule(ref, d), rd, now, 0);
            v.Changed? && !v.handoff && Agreed(Stored(v.request), d) && v.request.status == r.status
  {
    CommandAnswers.OnRequest(r, phone);
    var own := OwnParty(r.parties, phone, None);
    assert r.parties[own.value] in r.parties && PartyReady(r.parties[own.value]);
    PartyAnswers.ApprovesDateExactly(r, phone, ref, d, rd, now, 0);
    var q := Applied(r, phone, ApproveSchedule(ref, d), rd, now, 0).request;
    forall p | p in q.parties ensures p.scheduleDate == Some(d) && PartyReady(p) {
      var i :| 0 <= i < |q.parties| && q.parties[i] == p;
      assert r.parties[i] in r.parties && PartyReady(r.parties[i]);
    }
  }

  lemma ApprovalRuns(s: State, id: nat, phone: Phone, ref: Option<nat>, d: Date, rd: Reading, now: Now)
    requires StoreInv(s) && id in s.requests && OnlyMissing(s.requests[id], phone, d, now)
    requires rd.explicitApproval && rd.dateQuoted && rd.target == Some(id)
    ensures var o := Execute(s, phone, ApproveSchedule(ref, d), rd, now, 0);
            && o.Ok? && o.request == Some(id) && !o.handoff && StoreInv(o.state)
            && id in o.state.requests && Agreed(o.state.requests[id], d)
            && o.state.requests[id].status == s.requests[id].status
            && (HasRoom(o.state, d) <==> HasRoom(s, d))
  {
    var r, cmd := s.requests[id], ApproveSchedule(ref, d);
    assert RequestInv(r);
    LastApprovalAgrees(r, phone, ref, d, rd, now);
    ExecuteKeeps(s, phone, cmd, rd, now, 0);
    var v := Applied(r, phone, cmd, rd, now, 0);
    assert Execute(s, phone, cmd, rd, now, 0) == Ok(Save(s, id, v.request), Some(id), false);
    SameRoom(s, id, v.request, d);
  }

  lemma SameRoom(s: State, id: nat, q: Request, d: Date)
    requires id in s.requests && !IsBooked(s.requests[id]) && !IsBooked(q)
    ensures HasRoom(Save(s, id, q), d) <==> HasRoom(s, d)
  {
    BookedAfterSave(s, id, q, d);
    assert BookedOn(s, d) - {id} == BookedOn(s, d);
  }

  /** The approval that was missing books the date in the same transaction: when
      the towns are allowed, its run has room, and it is not the day itself. */
  lemma LastApprovalBooks(s: State, id: nat, phone: Phone, ref: Option<nat>, d: Date, rd: Reading, now: Now,
                          allowed: bool)
    requires StoreInv(s) && id in s.requests && OnlyMissing(s.requests[id], phone, d, now)
    requires rd.explicitApproval && rd.dateQuoted && rd.target == Some(id)
    ensures BookedFor(Step(s, Approval(phone, ref, d, rd, now, allowed)), id, d) <==>
              allowed && HasRoom(s, d) && !OnItsDay(d, now)
  {
    var c := (ApproveSchedule(ref, d), rd);
    ApprovalRuns(s, id, phone, ref, d, rd, now);
    var o := Execute(s, phone, c.0, c.1, now, 0);
    LoopOfOne(s, phone, c, now, 0, None);
    PlanEndsExactly(s, phone, map[], [c], now, 0, allowed);
    TailBooksExactly(o.state, id, d, now, allowed);
  }
}
