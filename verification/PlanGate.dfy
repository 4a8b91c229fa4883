/** What Engine.finish does with a plan before and between its commands: the
    rejection of a town outside the area, the reordering, the filter on a
    receiver's details, and the photo gate. Whatever these decide, the
    transaction is one of the steps of module Booking. */
module PlanGate {
  import opened Types
  import opened Policies
  import opened Commands
  import opened Booking
  import opened BookingRuns
  import opened BookingTheorems
  import opened Reorder

  /** A stored plan and what its turn reads: the versions the planner saw, the
      requests of the context, the request a town outside the area is about. */
  datatype Plan = Plan(
    phone: Phone, expected: map<nat, nat>, cmds: seq<Planned>, context: set<nat>, outsideTarget: Option<nat>,
    now: Now, time: int, allowed: bool)

  /** An open donation that still needs its photo. */
  predicate PhotoGate(r: Request) {
    r.origin == Donation && HasRole(r.parties, Donor) && !HasRole(r.parties, Receiver) && r.photos == []
  }

  predicate NamesOutside(c: Planned) {
    c.0.Details? && Given(c.0.settlement) && !c.1.settlementIsStreet && c.1.region.Outside?
  }

  predicate LinksSomeone(c: Planned) {
    c.0.CounterpartyCandidate? || c.0.ConfirmCounterparty? || c.0.Counterparty?
  }

  predicate DonorDetails(c: Planned) {
    c.0.Details? && c.0.role == Some(Donor)
  }

  // ------------------------------------------------------------------ the filter

  /** The sender's side of the request a command numbers, in the context. */
  function ActorRole(s: State, phone: Phone, context: set<nat>, ref: Option<nat>): Option<Role> {
    if ref.Some? && ref.value in context && ref.value in s.requests then
      var ps := s.requests[ref.value].parties;
      var k := FirstMine(ps, phone, None, false, 0);
      if k.Some? then Some(ps[k.value].role) else None
    else None
  }

  /** A donor may link a receiver, but not state that receiver's details. */
  predicate MayRun(s: State, phone: Phone, context: set<nat>, all: seq<Planned>, c: Planned) {
    || !c.0.Details? || c.0.role.None?
    || !CreatedBefore(all, c.0.ref, |all|)
    || var actor := ActorRole(s, phone, context, c.0.ref); actor.None? || actor == c.0.role
  }

  function Runnable(s: State, phone: Phone, context: set<nat>, all: seq<Planned>): Planned -> bool {
    (c: Planned) => MayRun(s, phone, context, all, c)
  }

  function Executable(s: State, p: Plan): seq<Planned> {
    var ordered := Reordered(p.cmds);
    Where(ordered, Runnable(s, p.phone, p.context, ordered))
  }

  // -------------------------------------------------------------- the photo gate

  /** waiting: a request of the context waits for its photo. linking: the plan
      holds a handoff transition. donorDetails: it holds the donor's details. */
  datatype Gate = Gate(waiting: bool, linking: bool, donorDetails: bool)

  predicate WaitsForPhoto(s: State, context: set<nat>) {
    exists id :: id in context && id in s.requests && PhotoGate(s.requests[id]) && Proposable(s.requests[id])
  }

  function GateOf(s: State, p: Plan, cmds: seq<Planned>): Gate {
    Gate(WaitsForPhoto(s, p.context),
         exists i :: 0 <= i < |p.cmds| && LinksSomeone(p.cmds[i]),
         exists i :: 0 <= i < |cmds| && DonorDetails(cmds[i]))
  }

  predicate Gated(s: State, request: Option<nat>) {
    request.Some? && request.value in s.requests && PhotoGate(s.requests[request.value])
  }

  /** The photo comes before this command. */
  predicate StopsBefore(s: State, cmd: Command, gate: Gate, request: Option<nat>) {
    && !gate.linking
    && (|| (gate.waiting && cmd.ItemFacts?)
        || (Gated(s, request) && !cmd.Details? && !cmd.ClarifyDuplicate?))
  }

  /** The photo comes right after this donation. */
  predicate StopsAfter(s: State, cmd: Command, gate: Gate, made: Option<nat>) {
    cmd.Donate? && Gated(s, made) && !gate.linking && !gate.donorDetails
  }

  /** The command loop with the photo gate. */
  function RunGated(
    s: State, phone: Phone, cmds: seq<Planned>, gate: Gate, now: Now, time: int, request: Option<nat>): Outcome
    decreases |cmds|
  {
    if cmds == [] || StopsBefore(s, cmds[0].0, gate, request) then Ok(s, request, false)
    else
      match Execute(s, phone, cmds[0].0, cmds[0].1, now, time)
      case Failed => Failed
      case Ok(s1, r1, handoff) =>
        var current := if r1.Some? then r1 else request;
        if StopsAfter(s1, cmds[0].0, gate, r1) || Ends(s1, current, handoff) then Ok(s1, current, handoff)
        else RunGated(s1, phone, cmds[1..], gate, now, time, current)
  }

  /** The gate only cuts the plan short. */
  lemma {:induction false} GateCutsShort(
    s: State, phone: Phone, cmds: seq<Planned>, gate: Gate, now: Now, time: int, request: Option<nat>)
    returns (n: nat)
    ensures n <= |cmds|
    ensures RunGated(s, phone, cmds, gate, now, time, request) == ExecuteAll(s, phone, cmds[..n], now, time, request)
    decreases |cmds|
  {
    if cmds == [] || StopsBefore(s, cmds[0].0, gate, request) {
      n := 0;
    } else {
      var o := Execute(s, phone, cmds[0].0, cmds[0].1, now, time);
      assert cmds[..1] == [cmds[0]];
      n := 1;
      if o.Ok? {
        var current := if o.request.Some? then o.request else request;
        if StopsAfter(o.state, cmds[0].0, gate, o.request) {
          DonationNeverHandsOff(s, phone, cmds[0].0, cmds[0].1, now, time);
          assert [cmds[0]][1..] == [];
        } else if !Ends(o.state, current, o.handoff) {
          var k := GateCutsShort(o.state, phone, cmds[1..], gate, now, time, current);
          n := k + 1;
          assert cmds[..n][0] == cmds[0] && cmds[..n][1..] == cmds[1..][..k];
        }
      }
    }
  }

  lemma DonationNeverHandsOff(s: State, phone: Phone, cmd: Command, rd: Reading, now: Now, time: int)
    requires cmd.Donate?
    ensures var o := Execute(s, phone, cmd, rd, now, time); o.Ok? ==> !o.handoff
  {}

  // ------------------------------------------------------------- the transaction

  /** The plan branch of finish. */
  function RunPlan(s: State, p: Plan): State {
    if !Fresh(s, p.expected) then s
    else if exists i :: 0 <= i < |p.cmds| && NamesOutside(p.cmds[i]) then
      if p.outsideTarget.Some? then RejectOutside(s, p.outsideTarget.value) else s
    else
      var cmds := Executable(s, p);
      Conclude(s, RunGated(s, p.phone, cmds, GateOf(s, p, cmds), p.now, p.time, None), p.now, p.allowed)
  }

  /** Every plan is one step of the store: it rejects a request for its town, or
      runs the first commands of its reordered and filtered list. So what holds
      of every run of steps holds of every run of plans. */
  lemma PlanIsAStep(s: State, p: Plan) returns (e: Event, n: nat)
    ensures RunPlan(s, p) == Step(s, e)
    ensures || (e.OutsideTown? && p.outsideTarget == Some(e.id))
            || (&& e.PlanFinished? && e.phone == p.phone && e.now == p.now && e.time == p.time
                && e.allowed == p.allowed && e.expected in {p.expected, map[]}
                && n <= |Executable(s, p)| && e.cmds == Executable(s, p)[..n])
  {
    var cmds := Executable(s, p);
    if !Fresh(s, p.expected) {
      e, n := PlanFinished(p.phone, p.expected, cmds[..0], p.now, p.time, p.allowed), 0;
    } else if exists i :: 0 <= i < |p.cmds| && NamesOutside(p.cmds[i]) {
      n := 0;
      e := if p.outsideTarget.Some? then OutsideTown(p.outsideTarget.value)
           else PlanFinished(p.phone, map[], cmds[..0], p.now, p.time, p.allowed);
    } else {
      n := GateCutsShort(s, p.phone, cmds, GateOf(s, p, cmds), p.now, p.time, None);
      e := PlanFinished(p.phone, p.expected, cmds[..n], p.now, p.time, p.allowed);
    }
  }

  /** The version check alone: a plan finished with versions read on store s acts
      only if each of their requests is still exactly as it was, also when it only
      rejects a town. Which versions those are is the matter of module Planning. */
  lemma StaleGatedPlanNeverActs(s: State, es: seq<Event>, p: Plan, id: nat)
    requires StoreInv(s) && SeenBy(s, p.expected) && id in p.expected
    ensures var t := After(s, es); RunPlan(t, p) != t ==> id in t.requests && t.requests[id] == s.requests[id]
  {
    AfterAdvances(s, es, id);
  }

  /** No receiver's details run that the sender's own side does not allow. */
  lemma {:induction false} WhereKeepsOnly(cs: seq<Planned>, p: Planned -> bool)
    ensures forall i :: 0 <= i < |Where(cs, p)| ==> p(Where(cs, p)[i]) && Where(cs, p)[i] in cs
  {
    if cs == [] {
    } else {
      WhereKeepsOnly(cs[1..], p);
    }
  }

  /** The commands a plan runs are commands of the plan, and none of them states
      the details of the other side of a request that the plan links. */
  lemma ExecutableIsOwn(s: State, p: Plan, c: Planned)
    requires c in Executable(s, p)
    ensures c in p.cmds
    ensures c.0.Details? && c.0.role.Some? && CreatedBefore(p.cmds, c.0.ref, |p.cmds|) ==>
              ActorRole(s, p.phone, p.context, c.0.ref) in {None, c.0.role}
  {
    var ordered := Reordered(p.cmds);
    WhereKeepsOnly(ordered, Runnable(s, p.phone, p.context, ordered));
    ReorderedIsPermutation(p.cmds);
    if c.0.Details? { SameCreations(ordered, p.cmds, c.0.ref); }
    assert c in multiset(ordered);
  }
}
