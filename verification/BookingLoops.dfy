/** The command loop of a plan, command by command: on which store each one
    runs, and what that says about consents, dates and bookings. */
module BookingLoops {
  import opened Types
  import opened Policies
  import opened Commands
  import opened Booking
  import opened Lifecycle
  import opened BookingRuns
  import opened BookingPaths

  // ----------------------------------------------------- which commands run

  /** The store on which the loop comes to command j, if it does: nothing before
      it fails or ends the plan. */
  function StoreBefore(
    s: State, phone: Phone, cmds: seq<Planned>, now: Now, time: int, request: Option<nat>, j: nat): Option<State>
    decreases j
  {
    if j >= |cmds| then None
    else if j == 0 then Some(s)
    else
      match Execute(s, phone, cmds[0].0, cmds[0].1, now, time)
      case Failed => None
      case Ok(s1, r1, handoff) =>
        var current := if r1.Some? then r1 else request;
        if Ends(s1, current, handoff) then None
        else StoreBefore(s1, phone, cmds[1..], now, time, current, j - 1)
  }

  /** The plan commits its commands. */
  predicate Commits(s: State, e: Event) {
    && e.PlanFinished? && Fresh(s, e.expected)
    && ExecuteAll(s, e.phone, e.cmds, e.now, e.time, None).Ok?
  }

  /** The store on which command j runs in a plan that commits. */
  function RunsOn(s: State, e: Event, j: nat): Option<State> {
    if Commits(s, e) then StoreBefore(s, e.phone, e.cmds, e.now, e.time, None, j) else None
  }

  /** Command j of the plan cancels request id. */
  predicate CancelCommand(e: Event, id: nat, onlyAsk: bool, j: nat) {
    && e.PlanFinished? && j < |e.cmds| && e.cmds[j].0.Cancel? && e.cmds[j].1.target == Some(id)
    && (onlyAsk ==> e.cmds[j].0.choice == CancelChoice.Ask)
  }

  /** A cancellation of request id that takes effect: it runs, and its plan commits. */
  predicate CancelsBy(s: State, e: Event, id: nat, onlyAsk: bool) {
    e.PlanFinished? && exists j :: 0 <= j < |e.cmds| && CancelCommand(e, id, onlyAsk, j) && RunsOn(s, e, j).Some?
  }

  /** Command j approves c.date of request id for the sender c names, on store u,
      in which that date is the live proposal and the facts are those of c. */
  predicate GivesOn(u: State, e: Event, id: nat, c: Consent, j: nat) {
    && Approves(e, id, c.date, j) && e.phone == c.phone
    && id in u.requests && u.requests[id].proposed == Some(c.date) && FactsOf(u.requests[id]) == c.facts
  }

  /** Consent c was given by a command of e that runs, and e commits. */
  predicate GivenBy(s: State, e: Event, id: nat, c: Consent) {
    && e.PlanFinished?
    && exists j :: 0 <= j < |e.cmds| && RunsOn(s, e, j).Some? && GivesOn(RunsOn(s, e, j).value, e, id, c, j)
  }

  // -------------------------------------------------------------- along a path

  /** Side role of request id has approved c.date with consent c, which still
      describes the request. */
  predicate StandsAt(s: State, id: nat, role: Role, c: Consent) {
    && id in s.requests
    && Stands(s.requests[id], role, c)
  }

  predicate Stands(r: Request, role: Role, c: Consent) {
    && Side(r, role).Some?
    && Side(r, role).value.scheduleDate == Some(c.date) && Side(r, role).value.phone == c.phone
    && ConsentOf(r, role) == Some(c) && FactsOf(r) == c.facts
  }

  lemma SideStands(r: Request, role: Role)
    requires RequestInv(r) && Side(r, role).Some? && Side(r, role).value.scheduleDate.Some?
    ensures ConsentOf(r, role).Some? && Stands(r, role, ConsentOf(r, role).value)
  {
    assert FreshConsent(r, Side(r, role).value);
  }

  lemma StoodBefore(r: Request, q: Request, e: Event, id: nat, role: Role, c: Consent)
    requires Moves(r, q, e, id) && Stands(q, role, c)
    ensures Stands(r, role, c) || Gives(e, id, c, r)
  {
    assert SideMoves(r, q, role, e, id);
    if !Gives(e, id, c, r) && Side(r, role).Some? { SideStands(r, role); }
  }

  lemma {:induction false} OriginOnPath(rs: seq<Request>, e: Event, id: nat, role: Role, c: Consent, k: nat)
    requires Path(rs, e, id) && k < |rs| && Stands(rs[k], role, c)
    ensures Stands(rs[0], role, c) || exists i :: 0 <= i < |rs| && Gives(e, id, c, rs[i])
  {
    if k == 0 {
    } else {
      assert Moves(rs[k - 1], rs[k], e, id);
      StoodBefore(rs[k - 1], rs[k], e, id, role, c);
      if Stands(rs[k - 1], role, c) { OriginOnPath(rs, e, id, role, c, k - 1); }
    }
  }

  /** The transactions that name an end of a booking. */
  predicate NamesEnd(e: Event, id: nat) {
    Cancels(e, id, false) || e == TurnFailed(id) || (e.AdminCompletes? && e.id == id)
  }

  lemma {:induction false} FrozenAlong(rs: seq<Request>, e: Event, id: nat, k: nat)
    requires Path(rs, e, id) && k < |rs| && IsBooked(rs[0]) && !NamesEnd(e, id)
    ensures rs[k] == rs[0].(version := rs[k].version)
  {
    if k == 0 {
    } else {
      FrozenAlong(rs, e, id, k - 1);
      assert Moves(rs[k - 1], rs[k], e, id);
    }
  }

  lemma {:induction false} EarliestAlong(rs: seq<Request>, e: Event, id: nat, k: nat)
    requires Path(rs, e, id) && k < |rs| && !Cancels(e, id, true)
    ensures rs[k].earliest == rs[0].earliest
  {
    if k == 0 {
    } else {
      EarliestAlong(rs, e, id, k - 1);
      assert Moves(rs[k - 1], rs[k], e, id);
    }
  }

  // ------------------------------------------------------ one turn of the loop

  /** The plan that holds command k alone. */
  function Alone(e: Event, k: nat): Event
    requires e.PlanFinished? && k < |e.cmds|
  {
    e.(cmds := [e.cmds[k]])
  }

  lemma CommandStoodOrGiven(s: State, e: Event, k: nat, id: nat, role: Role, c: Consent)
    requires StoreInv(s) && e.PlanFinished? && k < |e.cmds|
    requires var o := Execute(s, e.phone, e.cmds[k].0, e.cmds[k].1, e.now, e.time);
             o.Ok? && StandsAt(o.state, id, role, c)
    ensures StandsAt(s, id, role, c) || GivesOn(s, e, id, c, k)
  {
    var one := Alone(e, k);
    if e.cmds[k].0.ApproveSchedule? && e.cmds[k].1.target == Some(id) {
      ApprovalStoodOrGiven(s, e, k, id, role, c);
    } else {
      var rs := ExecuteLeads(s, one, 0, id);
      OriginOnPath(rs, one, id, role, c, |rs| - 1);
      NewbornHasNoDates(rs[0], role, c);
    }
  }

  lemma NewbornHasNoDates(r: Request, role: Role, c: Consent)
    ensures Newborn(r) ==> !Stands(r, role, c)
  {
    assert Newborn(r) ==> forall p :: p in r.parties ==> p.scheduleDate.None?;
  }

  /** An approval runs on the request as it stands in the store. */
  lemma ApprovalStoodOrGiven(s: State, e: Event, k: nat, id: nat, role: Role, c: Consent)
    requires StoreInv(s) && e.PlanFinished? && k < |e.cmds|
    requires e.cmds[k].0.ApproveSchedule? && e.cmds[k].1.target == Some(id)
    requires var o := Execute(s, e.phone, e.cmds[k].0, e.cmds[k].1, e.now, e.time);
             o.Ok? && StandsAt(o.state, id, role, c)
    ensures StandsAt(s, id, role, c) || GivesOn(s, e, id, c, k)
  {
    var one := Alone(e, k);
    assert Execute(s, e.phone, e.cmds[k].0, e.cmds[k].1, e.now, e.time)
        == Targeted(s, id, e.phone, e.cmds[k].0, e.cmds[k].1, e.now, e.time);
    var r := s.requests[id];
    assert RequestInv(r);
    var v := Applied(r, one.phone, one.cmds[0].0, one.cmds[0].1, one.now, one.time);
    if v.Changed? {
      CommandMoves(r, one, 0, id);
      StoodBefore(r, Stored(v.request), one, id, role, c);
    }
  }

  /** Unless it cancels the request for now, a command leaves its earliest date. */
  lemma CommandKeepsEarliest(s: State, e: Event, k: nat, id: nat)
    requires StoreInv(s) && id in s.requests && e.PlanFinished? && k < |e.cmds| && !CancelCommand(e, id, true, k)
    requires Execute(s, e.phone, e.cmds[k].0, e.cmds[k].1, e.now, e.time).Ok?
    ensures var t := Execute(s, e.phone, e.cmds[k].0, e.cmds[k].1, e.now, e.time).state;
            id in t.requests && t.requests[id].earliest == s.requests[id].earliest
  {
    var one := Alone(e, k);
    ExecuteNeverDeletes(s, one, 0, id);
    var rs := ExecuteLeads(s, one, 0, id);
    assert !Cancels(one, id, true);
    EarliestAlong(rs, one, id, |rs| - 1);
  }

  /** Unless it cancels the request, a command leaves a booked one alone. */
  lemma CommandFreezes(s: State, e: Event, k: nat, id: nat)
    requires StoreInv(s) && id in s.requests && s.requests[id].status == Coordinated
    requires e.PlanFinished? && k < |e.cmds| && !CancelCommand(e, id, false, k)
    requires Execute(s, e.phone, e.cmds[k].0, e.cmds[k].1, e.now, e.time).Ok?
    ensures var t := Execute(s, e.phone, e.cmds[k].0, e.cmds[k].1, e.now, e.time).state;
            id in t.requests && t.requests[id] == s.requests[id].(version := t.requests[id].version)
  {
    var one := Alone(e, k);
    ExecuteNeverDeletes(s, one, 0, id);
    var rs := ExecuteLeads(s, one, 0, id);
    assert !Cancels(one, id, false);
    FrozenAlong(rs, one, id, |rs| - 1);
  }

  // ------------------------------------------------------------ the whole loop

  /** The request the loop remembers after a command. */
  function Current(o: Outcome, request: Option<nat>): Option<nat>
    requires o.Ok?
  {
    if o.request.Some? then o.request else request
  }

  /** One turn: command k runs first, and the rest is the loop from the next one. */
  lemma Turn(s: State, e: Event, k: nat, request: Option<nat>)
    requires e.PlanFinished? && k < |e.cmds|
    requires ExecuteAll(s, e.phone, e.cmds[k..], e.now, e.time, request).Ok?
    ensures StoreBefore(s, e.phone, e.cmds[k..], e.now, e.time, request, 0) == Some(s)
    ensures var o := Execute(s, e.phone, e.cmds[k].0, e.cmds[k].1, e.now, e.time);
            && o.Ok?
            && ExecuteAll(s, e.phone, e.cmds[k..], e.now, e.time, request)
               == (if Ends(o.state, Current(o, request), o.handoff) then Ok(o.state, Current(o, request), o.handoff)
                   else ExecuteAll(o.state, e.phone, e.cmds[k + 1..], e.now, e.time, Current(o, request)))
  {
    assert e.cmds[k..][0] == e.cmds[k] && e.cmds[k..][1..] == e.cmds[k + 1..];
  }

  lemma LaterStore(s: State, e: Event, k: nat, request: Option<nat>, j: nat)
    requires e.PlanFinished? && k < j < |e.cmds|
    ensures var o := Execute(s, e.phone, e.cmds[k].0, e.cmds[k].1, e.now, e.time);
            StoreBefore(s, e.phone, e.cmds[k..], e.now, e.time, request, j - k)
            == if o.Failed? || Ends(o.state, Current(o, request), o.handoff) then None
               else StoreBefore(o.state, e.phone, e.cmds[k + 1..], e.now, e.time, Current(o, request), j - (k + 1))
  {
    assert e.cmds[k..][0] == e.cmds[k] && e.cmds[k..][1..] == e.cmds[k + 1..];
  }

  /** In the loop from command k on, command j runs on a store in which it gives c. */
  predicate GivenFrom(s: State, e: Event, k: nat, request: Option<nat>, id: nat, c: Consent, j: nat) {
    && e.PlanFinished? && k <= j < |e.cmds|
    && var u := StoreBefore(s, e.phone, e.cmds[k..], e.now, e.time, request, j - k);
       u.Some? && GivesOn(u.value, e, id, c, j)
  }

  lemma {:induction false} LoopStoodOrGiven(
    s: State, e: Event, k: nat, request: Option<nat>, id: nat, role: Role, c: Consent)
    returns (j: nat)
    requires StoreInv(s) && e.PlanFinished? && k <= |e.cmds|
    requires var o := ExecuteAll(s, e.phone, e.cmds[k..], e.now, e.time, request);
             o.Ok? && StandsAt(o.state, id, role, c)
    ensures StandsAt(s, id, role, c) || GivenFrom(s, e, k, request, id, c, j)
    decreases |e.cmds| - k
  {
    j := k;
    if k == |e.cmds| {
    } else {
      Turn(s, e, k, request);
      var o := Execute(s, e.phone, e.cmds[k].0, e.cmds[k].1, e.now, e.time);
      ExecuteKeeps(s, e.phone, e.cmds[k].0, e.cmds[k].1, e.now, e.time);
      if !Ends(o.state, Current(o, request), o.handoff) {
        j := LoopStoodOrGiven(o.state, e, k + 1, Current(o, request), id, role, c);
        if k < j < |e.cmds| { LaterStore(s, e, k, request, j); }
      }
      if StandsAt(o.state, id, role, c) {
        j := k;
        CommandStoodOrGiven(s, e, k, id, role, c);
      }
    }
  }

  /** No command that runs from k on cancels the request, command but perhaps. */
  predicate NoCancelFrom(
    s: State, e: Event, k: nat, request: Option<nat>, id: nat, onlyAsk: bool, but: Option<nat>)
  {
    e.PlanFinished? ==>
      forall j :: k <= j < |e.cmds| && CancelCommand(e, id, onlyAsk, j) && but != Some(j) ==>
        StoreBefore(s, e.phone, e.cmds[k..], e.now, e.time, request, j - k).None?
  }

  lemma NoCancelLater(s: State, e: Event, k: nat, request: Option<nat>, id: nat, onlyAsk: bool, but: Option<nat>)
    requires e.PlanFinished? && k < |e.cmds| && NoCancelFrom(s, e, k, request, id, onlyAsk, but)
    requires var o := Execute(s, e.phone, e.cmds[k].0, e.cmds[k].1, e.now, e.time);
             o.Ok? && !Ends(o.state, Current(o, request), o.handoff)
    ensures var o := Execute(s, e.phone, e.cmds[k].0, e.cmds[k].1, e.now, e.time);
            NoCancelFrom(o.state, e, k + 1, Current(o, request), id, onlyAsk, but)
  {
    var o := Execute(s, e.phone, e.cmds[k].0, e.cmds[k].1, e.now, e.time);
    forall j | k + 1 <= j < |e.cmds| && CancelCommand(e, id, onlyAsk, j) && but != Some(j)
      ensures StoreBefore(o.state, e.phone, e.cmds[k + 1..], e.now, e.time, Current(o, request), j - (k + 1)).None?
    {
      LaterStore(s, e, k, request, j);
    }
  }

  lemma {:induction false} LoopKeepsEarliest(
    s: State, e: Event, k: nat, request: Option<nat>, id: nat, but: Option<nat>)
    requires StoreInv(s) && id in s.requests && e.PlanFinished? && k <= |e.cmds|
    requires ExecuteAll(s, e.phone, e.cmds[k..], e.now, e.time, request).Ok?
    requires NoCancelFrom(s, e, k, request, id, true, but) && (but.None? || but.value < k)
    ensures var t := ExecuteAll(s, e.phone, e.cmds[k..], e.now, e.time, request).state;
            StoreInv(t) && id in t.requests && t.requests[id].earliest == s.requests[id].earliest
    decreases |e.cmds| - k
  {
    if k == |e.cmds| {
    } else {
      Turn(s, e, k, request);
      var o := Execute(s, e.phone, e.cmds[k].0, e.cmds[k].1, e.now, e.time);
      ExecuteKeeps(s, e.phone, e.cmds[k].0, e.cmds[k].1, e.now, e.time);
      CommandKeepsEarliest(s, e, k, id);
      if !Ends(o.state, Current(o, request), o.handoff) {
        NoCancelLater(s, e, k, request, id, true, but);
        LoopKeepsEarliest(o.state, e, k + 1, Current(o, request), id, but);
      }
    }
  }

  lemma {:induction false} LoopFreezes(s: State, e: Event, k: nat, request: Option<nat>, id: nat)
    requires StoreInv(s) && id in s.requests && s.requests[id].status == Coordinated
    requires e.PlanFinished? && k <= |e.cmds|
    requires ExecuteAll(s, e.phone, e.cmds[k..], e.now, e.time, request).Ok?
    requires NoCancelFrom(s, e, k, request, id, false, None)
    ensures var t := ExecuteAll(s, e.phone, e.cmds[k..], e.now, e.time, request).state;
            && StoreInv(t) && id in t.requests
            && t.requests[id] == s.requests[id].(version := t.requests[id].version)
    decreases |e.cmds| - k
  {
    if k == |e.cmds| {
    } else {
      Turn(s, e, k, request);
      var o := Execute(s, e.phone, e.cmds[k].0, e.cmds[k].1, e.now, e.time);
      ExecuteKeeps(s, e.phone, e.cmds[k].0, e.cmds[k].1, e.now, e.time);
      CommandFreezes(s, e, k, id);
      if !Ends(o.state, Current(o, request), o.handoff) {
        NoCancelLater(s, e, k, request, id, false, None);
        LoopFreezes(o.state, e, k + 1, Current(o, request), id);
      }
    }
  }

  // ------------------------------------------------------------------ the tail

  /** The proposal and booking at the end of a plan, as a path of a plan without
      commands. */
  lemma EndLeads(s: State, o: Outcome, e: Event, id: nat) returns (rs: seq<Request>)
    requires o.Ok? && StoreInv(o.state) && e.PlanFinished? && id in Conclude(s, o, e.now, e.allowed).requests
    ensures Leads(o.state, Conclude(s, o, e.now, e.allowed), e.(cmds := []), id, rs) && id in o.state.requests
  {
    if !o.handoff && o.request.Some? && o.request.value in o.state.requests {
      var k := o.request.value;
      OfferKeepsIds(o.state, k, e.now, id);
      BookKeepsIds(OfferDate(o.state, k, e.now), k, e.now, e.allowed, id);
      rs := TailLeads(o.state, k, e.now, e.allowed, e.(cmds := []), id);
    } else {
      rs := [o.state.requests[id]];
    }
  }

  lemma EndKeepsIds(s: State, o: Outcome, e: Event, id: nat)
    requires o.Ok? && id in o.state.requests && e.PlanFinished?
    ensures id in Conclude(s, o, e.now, e.allowed).requests
  {
    if !o.handoff && o.request.Some? && o.request.value in o.state.requests {
      var k := o.request.value;
      OfferKeepsIds(o.state, k, e.now, id);
      BookKeepsIds(OfferDate(o.state, k, e.now), k, e.now, e.allowed, id);
    }
  }

  /** They give no consent, ask for no cancellation and end no booking. */
  lemma EndStood(s: State, o: Outcome, e: Event, id: nat, role: Role, c: Consent)
    requires o.Ok? && StoreInv(o.state) && e.PlanFinished?
    requires StandsAt(Conclude(s, o, e.now, e.allowed), id, role, c)
    ensures StandsAt(o.state, id, role, c)
  {
    var rs := EndLeads(s, o, e, id);
    OriginOnPath(rs, e.(cmds := []), id, role, c, |rs| - 1);
  }

  lemma EndKeepsEarliest(s: State, o: Outcome, e: Event, id: nat)
    requires o.Ok? && StoreInv(o.state) && id in o.state.requests && e.PlanFinished?
    ensures var t := Conclude(s, o, e.now, e.allowed);
            id in t.requests && t.requests[id].earliest == o.state.requests[id].earliest
  {
    EndKeepsIds(s, o, e, id);
    var rs := EndLeads(s, o, e, id);
    EarliestAlong(rs, e.(cmds := []), id, |rs| - 1);
  }

  lemma EndFreezes(s: State, o: Outcome, e: Event, id: nat)
    requires o.Ok? && StoreInv(o.state) && id in o.state.requests && e.PlanFinished?
    requires o.state.requests[id].status == Coordinated
    ensures var t := Conclude(s, o, e.now, e.allowed);
            id in t.requests && t.requests[id] == o.state.requests[id].(version := t.requests[id].version)
  {
    EndKeepsIds(s, o, e, id);
    var rs := EndLeads(s, o, e, id);
    FrozenAlong(rs, e.(cmds := []), id, |rs| - 1);
  }

  // ----------------------------------------------------------- the transactions

  /** A consent that stands after a plan stood before it, or a command gave it. */
  lemma PlanStoodOrGiven(s: State, e: Event, id: nat, role: Role, c: Consent)
    requires StoreInv(s) && e.PlanFinished? && StandsAt(Step(s, e), id, role, c)
    ensures StandsAt(s, id, role, c) || GivenBy(s, e, id, c)
  {
    if Commits(s, e) {
      var o := ExecuteAll(s, e.phone, e.cmds, e.now, e.time, None);
      assert e.cmds[0..] == e.cmds;
      ExecuteAllKeeps(s, e.phone, e.cmds, e.now, e.time, None);
      EndStood(s, o, e, id, role, c);
      var j := LoopStoodOrGiven(s, e, 0, None, id, role, c);
      assert GivenFrom(s, e, 0, None, id, c, j) ==> GivesOn(RunsOn(s, e, j).value, e, id, c, j);
    }
  }

  lemma StoodOrGiven(s: State, e: Event, id: nat, role: Role, c: Consent)
    requires StoreInv(s) && StandsAt(Step(s, e), id, role, c)
    ensures StandsAt(s, id, role, c) || GivenBy(s, e, id, c)
  {
    if e.PlanFinished? {
      PlanStoodOrGiven(s, e, id, role, c);
    } else {
      var rs := StepLeads(s, e, id);
      OriginOnPath(rs, e, id, role, c, |rs| - 1);
      NewbornHasNoDates(rs[0], role, c);
    }
  }

  lemma PlanKeepsEarliest(s: State, e: Event, id: nat)
    requires StoreInv(s) && id in s.requests && e.PlanFinished? && !CancelsBy(s, e, id, true)
    ensures id in Step(s, e).requests && Step(s, e).requests[id].earliest == s.requests[id].earliest
  {
    if Commits(s, e) {
      assert e.cmds[0..] == e.cmds;
      LoopKeepsEarliest(s, e, 0, None, id, None);
      EndKeepsEarliest(s, ExecuteAll(s, e.phone, e.cmds, e.now, e.time, None), e, id);
    }
  }

  lemma StepKeepsEarliest(s: State, e: Event, id: nat)
    requires StoreInv(s) && id in s.requests && !CancelsBy(s, e, id, true)
    ensures id in Step(s, e).requests && Step(s, e).requests[id].earliest == s.requests[id].earliest
  {
    if e.PlanFinished? {
      PlanKeepsEarliest(s, e, id);
    } else {
      StepKeepsIds(s, e, id);
      var rs := StepLeads(s, e, id);
      EarliestAlong(rs, e, id, |rs| - 1);
    }
  }

  lemma PlanFreezes(s: State, e: Event, id: nat)
    requires StoreInv(s) && id in s.requests && s.requests[id].status == Coordinated
    requires e.PlanFinished? && !CancelsBy(s, e, id, false)
    ensures id in Step(s, e).requests
    ensures var q := Step(s, e).requests[id]; q == s.requests[id].(version := q.version)
  {
    if Commits(s, e) {
      assert e.cmds[0..] == e.cmds;
      LoopFreezes(s, e, 0, None, id);
      EndFreezes(s, ExecuteAll(s, e.phone, e.cmds, e.now, e.time, None), e, id);
    }
  }
}
