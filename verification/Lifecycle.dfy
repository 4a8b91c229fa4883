/** What every stored request satisfies, and that every command keeps it. */
module Lifecycle {
  import opened Types
  import opened Policies
  import opened Commands
  import opened Booking

  // ---------------------------------------------------------------- invariant

  predicate PartyInv(p: Party) {
    && p.approvedBy == (if p.approvedAt.Some? then Some(p.phone) else None)
    && (Given(p.settlement) && p.settlement != Some(BEIT_SHEAN) ==> p.floor == Some(0))
  }

  /** Dates are Tuesdays, never before the earliest date the customer allowed,
      and only a two-sided request is offered one or waits for one. */
  predicate DatesInv(r: Request) {
    && (r.earliest.Some? ==> Tuesday(r.earliest.value))
    && (r.proposed.Some? ==> Tuesday(r.proposed.value))
    && (r.runDate.Some? ==> Tuesday(r.runDate.value))
    && (r.proposed.Some? && r.earliest.Some? ==> r.earliest.value <= r.proposed.value)
    && (r.runDate.Some? && r.earliest.Some? ==> r.earliest.value <= r.runDate.value)
    && (r.proposed.Some? || r.status == WaitingCapacity ==> |r.parties| == 2)
  }

  /** Who is on both sides, and who may have been contacted. */
  predicate SidesInv(r: Request) {
    && (r.representsBoth ==>
          && |r.parties| == 2 && r.parties[0].phone == r.parties[1].phone
          && (r.parties[0].approvedAt.Some? <==> r.parties[1].approvedAt.Some?))
    && (r.verificationContacted ==> |r.parties| == 2 && r.parties[0].phone != r.parties[1].phone)
    && (|r.parties| == 2 && r.parties[0].phone == r.parties[1].phone && !r.representsBoth ==> r.origin == Direct)
  }

  /** A side's approved date was sent by that side's phone while it was the
      live proposal, it is still the proposal or the booked date, and no fact
      has changed since. */
  predicate FreshConsent(r: Request, p: Party)
    requires p.scheduleDate.Some?
  {
    && p.role in r.consents
    && r.consents[p.role] == Consent(p.phone, p.scheduleDate.value, FactsOf(r))
    && (r.proposed == p.scheduleDate || (r.proposed.None? && r.runDate == p.scheduleDate))
    && |r.parties| == 2
  }

  predicate ConsentInv(r: Request) {
    forall p :: p in r.parties && p.scheduleDate.Some? ==> FreshConsent(r, p)
  }

  predicate IsBooked(r: Request) {
    r.status in {Coordinated, Closed}
  }

  /** A booked request has a date and no proposal, and both sides approved
      themselves and exactly that date. */
  predicate BookedInv(r: Request) {
    IsBooked(r) ==>
      && r.runDate.Some? && r.proposed.None?
      && |r.parties| == 2
      && !(r.origin == Direct && !r.representsBoth && !r.verificationContacted)
      && (forall p :: p in r.parties ==> PartyReady(p) && p.scheduleDate == r.runDate)
      && (forall i :: i in r.items ==> ItemReady(i, r.origin))
      && TotalQuantity(r.items) <= 2
  }

  predicate RequestInv(r: Request) {
    && Ordered(r.parties)
    && (forall p :: p in r.parties ==> PartyInv(p))
    && DatesInv(r) && SidesInv(r) && ConsentInv(r) && BookedInv(r)
  }

  /** The questionnaire's premises are part of the invariant. */
  lemma InvMakesApprovalsConsistent(r: Request)
    requires RequestInv(r)
    ensures Ordered(r.parties) && ApprovalsConsistent(r)
  {
    assert forall p :: p in r.parties ==> PartyInv(p);
  }

  // -------------------------------------------------------------- small steps

  lemma SameFacts(a: Request, b: Request)
    requires |a.parties| == |b.parties| && a.items == b.items
    requires forall i :: 0 <= i < |a.parties| ==> FactsOfParty(a.parties[i]) == FactsOfParty(b.parties[i])
    ensures FactsOf(a) == FactsOf(b)
  {
    assert FactsOf(a).parties == FactsOf(b).parties;
  }

  /** Nobody's approval survives: consent holds vacuously. */
  predicate Undated(ps: seq<Party>) {
    forall p :: p in ps ==> p.scheduleDate.None?
  }

  lemma OneSidedIsUndated(r: Request)
    requires RequestInv(r) && |r.parties| == 1
    ensures Undated(r.parties)
  {
    assert ConsentInv(r);
  }

  /** Only the status, version, photos or consents changed, and not to a booking. */
  lemma StatusChangeKeeps(r: Request, q: Request)
    requires RequestInv(r)
    requires q == r.(version := q.version, status := q.status, photos := q.photos)
    requires IsBooked(q) ==> IsBooked(r)
    requires q.status == WaitingCapacity ==> |r.parties| == 2
    ensures RequestInv(Stored(q))
  {
    SameFacts(r, Stored(q));
    forall p | p in q.parties && p.scheduleDate.Some? ensures FreshConsent(Stored(q), p) {
      assert FreshConsent(r, p);
    }
  }

  lemma InvalidatedKeepsParties(r: Request)
    requires Ordered(r.parties) && forall p :: p in r.parties ==> PartyInv(p)
    ensures var q := Invalidated(r);
            && Ordered(q.parties) && (forall p :: p in q.parties ==> PartyInv(p)) && Undated(q.parties)
  {
    var q := Invalidated(r);
    forall p | p in q.parties ensures PartyInv(p) && p.scheduleDate.None? {
      var i :| 0 <= i < |q.parties| && q.parties[i] == p;
      assert r.parties[i] in r.parties;
    }
  }

  lemma CancelKeeps(r: Request, choice: CancelChoice, rd: Reading, now: Now)
    requires RequestInv(r) && Visible(r)
    ensures var v := ApplyCancel(r, choice, rd, now); v.Changed? ==> RequestInv(Stored(v.request))
  {
    NextTuesdayMeaning(now);
    var v := ApplyCancel(r, choice, rd, now);
    if v.Changed? { DroppedKeeps(r, v.request); }
  }

  /** Dropping the proposal and the approvals, with or without the run date. */
  lemma DroppedKeeps(r: Request, q: Request)
    requires RequestInv(r)
    requires q == Invalidated(r).(status := q.status, runDate := q.runDate, earliest := q.earliest)
    requires !IsBooked(q) && q.status != WaitingCapacity
    requires q.earliest.Some? ==> Tuesday(q.earliest.value)
    requires q.runDate.None? || (q.runDate == r.runDate && q.earliest == r.earliest)
    ensures RequestInv(Stored(q))
  {
    InvalidatedKeepsParties(r);
  }

  lemma ContactKeeps(r: Request, phone: Phone, contact: bool, rd: Reading)
    requires RequestInv(r) && Visible(r) && HasPhone(r.parties, phone)
    ensures var v := ApplyContact(r, phone, contact, rd); v.Changed? ==> RequestInv(Stored(v.request))
  {
    var v := ApplyContact(r, phone, contact, rd);
    if v.Changed? {
      if r.verificationContacted {
        StatusChangeKeeps(r, r);
      } else if contact {
        SameFacts(r, Stored(v.request));
        forall p | p in r.parties && p.scheduleDate.Some? ensures FreshConsent(Stored(v.request), p) {
          assert FreshConsent(r, p);
        }
      } else {
        InvalidatedKeepsParties(r);
        assert !r.representsBoth;
      }
    }
  }

  lemma SelfApprovalKeeps(r: Request, phone: Phone, rd: Reading, time: int)
    requires RequestInv(r)
    ensures var v := ApplySelfApproval(r, phone, rd, time); v.Changed? ==> RequestInv(Stored(v.request))
  {
    var v := ApplySelfApproval(r, phone, rd, time);
    if v.Changed? {
      var q := r.(parties := AllSelfApproved(r.parties, phone, time));
      SameFacts(r, q);
      forall p | p in q.parties ensures PartyInv(p) && (p.scheduleDate.Some? ==> FreshConsent(q, p)) {
        var i :| 0 <= i < |q.parties| && q.parties[i] == p;
        assert PartyInv(r.parties[i]);
        if p.scheduleDate.Some? { assert FreshConsent(r, r.parties[i]); }
      }
      assert RequestInv(q);
      StatusChangeKeeps(q, v.request);
    }
  }

  lemma RolesOfSender(ps: seq<Party>, phone: Phone)
    requires Ordered(ps)
    ensures forall p :: p in ps ==> (p.role in RolesOf(ps, phone) <==> p.phone == phone)
  {
    forall p | p in ps && p.role in RolesOf(ps, phone) ensures p.phone == phone {
      var q :| q in ps && q.phone == phone && q.role == p.role;
      assert p == q;
    }
  }

  lemma DatedConsent(r: Request, phone: Phone, date: Date, i: nat)
    requires RequestInv(r) && i < |r.parties| && r.proposed == Some(date)
    ensures var q := r.(parties := AllDated(r.parties, phone, r.proposed), consents := Recorded(r, phone, date));
            PartyInv(q.parties[i]) && (q.parties[i].scheduleDate.Some? ==> FreshConsent(q, q.parties[i]))
  {
    var q := r.(parties := AllDated(r.parties, phone, r.proposed), consents := Recorded(r, phone, date));
    SameFacts(r, q);
    var p := r.parties[i];
    assert p in r.parties && PartyInv(p);
    RolesOfSender(r.parties, phone);
    if p.phone != phone && p.scheduleDate.Some? { assert FreshConsent(r, p); }
  }

  lemma DateApprovalKeeps(r: Request, phone: Phone, date: Date, rd: Reading)
    requires RequestInv(r)
    ensures var v := ApplyDateApproval(r, phone, date, rd); v.Changed? ==> RequestInv(Stored(v.request))
  {
    var v := ApplyDateApproval(r, phone, date, rd);
    if v.Changed? {
      var q := r.(parties := AllDated(r.parties, phone, r.proposed), consents := Recorded(r, phone, date));
      assert RequestInv(q) by {
        forall p | p in q.parties ensures PartyInv(p) && (p.scheduleDate.Some? ==> FreshConsent(q, p)) {
          var i :| 0 <= i < |q.parties| && q.parties[i] == p;
          DatedConsent(r, phone, date, i);
        }
      }
      StatusChangeKeeps(q, v.request);
    }
  }

  // ------------------------------------------------------- linking and details

  lemma RolesPresent(ps: seq<Party>)
    requires Ordered(ps)
    ensures HasRole(ps, Receiver) <==> |ps| == 2 || ps[0].role == Receiver
    ensures HasRole(ps, Donor) <==> ps[0].role == Donor
  {}

  /** A second side joins a one-sided request; nobody has approved a date yet. */
  lemma LinkKeeps(r: Request, p: Party, q: Request)
    requires RequestInv(r) && |r.parties| == 1 && PartyInv(p) && p.scheduleDate.None?
    requires p.role == Opposite(r.parties[0].role) && Undated(r.parties)
    requires q.parties == r.parties + [p] && !IsBooked(q) && q.proposed.None?
    requires q.runDate == r.runDate && q.earliest == r.earliest && !q.verificationContacted
    requires q.representsBoth ==>
               p.phone == r.parties[0].phone && (p.approvedAt.Some? <==> r.parties[0].approvedAt.Some?)
    requires p.phone == r.parties[0].phone ==> q.representsBoth || q.origin == Direct
    ensures RequestInv(Stored(q))
  {
    var ps := ByRole(q.parties);
    assert forall x :: x in ps ==> x == p || x == r.parties[0];
    assert r.parties[0] in r.parties;
  }

  /** What the counterparty command links, when it links. */
  lemma CounterpartyLinks(r: Request, phone: Phone, cmd: Command, rd: Reading, time: int) returns (p: Party)
    requires RequestInv(r) && cmd.Counterparty? && Given(cmd.phone)
    requires ApplyCounterparty(r, phone, cmd, rd, time).Changed?
    ensures |r.parties| == 1 && !Protected(r) && r.parties[0].phone == phone
    ensures PartyInv(p) && p.scheduleDate.None? && p.role == Opposite(r.parties[0].role)
    ensures p.phone == phone ==> (p.approvedAt.Some? <==> r.parties[0].approvedAt.Some?)
    ensures var q := ApplyCounterparty(r, phone, cmd, rd, time).request;
            && q == r.(parties := r.parties + [p], proposed := None, origin := Direct,
                       items := q.items, representsBoth := q.representsBoth)
            && (q.representsBoth <==> r.representsBoth || p.phone == phone)
  {
    var own := OwnParty(r.parties, phone, None);
    assert |r.parties| == 1 && r.parties[0] in r.parties;
    p := OtherSide(r, Opposite(r.parties[0].role), SuppliedPhone(cmd.phone.value, rd).value, phone, cmd, rd, time);
    WithOtherShape(r, p);
  }

  lemma WithOtherShape(r: Request, p: Party)
    requires RequestInv(r) && |r.parties| == 1 && p.scheduleDate.None?
    ensures var q := WithOther(r, p);
            && q == r.(parties := r.parties + [p], proposed := None, origin := Direct,
                       items := q.items, representsBoth := q.representsBoth)
            && (q.representsBoth <==> r.representsBoth || p.phone == r.parties[0].phone)
  {
    OneSidedIsUndated(r);
    assert Invalidated(Linked(r, p)).parties == r.parties + [p];
  }

  /** A new side that may join: it keeps the rules of a side, and a person on
      both sides has approved both or neither. */
  predicate MayJoin(r: Request, p: Party) {
    && |r.parties| == 1 && PartyInv(p) && p.scheduleDate.None?
    && p.role == Opposite(r.parties[0].role)
    && (p.phone == r.parties[0].phone ==> (p.approvedAt.Some? <==> r.parties[0].approvedAt.Some?))
  }

  lemma WithOtherKeeps(r: Request, p: Party)
    requires RequestInv(r) && MayJoin(r, p)
    ensures RequestInv(Stored(WithOther(r, p)))
  {
    WithOtherShape(r, p);
    OneSidedIsUndated(r);
    LinkKeeps(r, p, WithOther(r, p));
  }

  lemma CounterpartyKeeps(r: Request, phone: Phone, cmd: Command, rd: Reading, time: int)
    requires RequestInv(r) && cmd.Counterparty?
    ensures var v := ApplyCounterparty(r, phone, cmd, rd, time); v.Changed? ==> RequestInv(Stored(v.request))
  {
    var v := ApplyCounterparty(r, phone, cmd, rd, time);
    if v.Changed? {
      if !Given(cmd.phone) {
        StatusChangeKeeps(r, r);
      } else {
        var p := CounterpartyLinks(r, phone, cmd, rd, time);
        OneSidedIsUndated(r);
        LinkKeeps(r, p, v.request);
      }
    }
  }

  lemma ConfirmationKeeps(r: Request, accept: bool, rd: Reading)
    requires RequestInv(r)
    ensures var v := ApplyConfirmation(r, accept, rd); v.Changed? ==> RequestInv(Stored(v.request))
  {
    var v := ApplyConfirmation(r, accept, rd);
    if v.Changed? {
      if !accept {
        StatusChangeKeeps(r, r);
      } else {
        RolesPresent(r.parties);
        OneSidedIsUndated(r);
        LinkKeeps(r, v.request.parties[1], v.request);
      }
    }
  }

  lemma ClaimKeeps(r: Request, phone: Phone, rd: Reading)
    requires RequestInv(r) && Offered(r, phone)
    ensures var v := Claimed(r, phone, rd); v.Changed? ==> RequestInv(Stored(v.request))
  {
    var v := Claimed(r, phone, rd);
    if v.Changed? {
      RolesPresent(r.parties);
      OneSidedIsUndated(r);
      LinkKeeps(r, v.request.parties[1], v.request);
    }
  }

  /** An edit of names, places, floors or items, after the proposal and the
      date approvals were dropped. */
  predicate Edit(r: Request, q: Request) {
    && |q.parties| == |r.parties|
    && (forall i :: 0 <= i < |r.parties| ==>
          && q.parties[i].role == r.parties[i].role && q.parties[i].phone == r.parties[i].phone
          && q.parties[i].approvedAt == r.parties[i].approvedAt && q.parties[i].scheduleDate.None?
          && PartyInv(q.parties[i]))
    && q.proposed.None? && q.runDate == r.runDate && q.earliest == r.earliest
    && q.representsBoth == r.representsBoth && q.verificationContacted == r.verificationContacted
    && q.origin == r.origin
    && !IsBooked(q)
    && (q.status == WaitingCapacity ==> |r.parties| == 2)
  }

  lemma EditKeeps(r: Request, q: Request)
    requires RequestInv(r) && Edit(r, q)
    ensures RequestInv(Stored(q))
  {}

  lemma WrittenKeeps(ps: seq<Party>, both: bool, k: nat, phone: Phone, cmd: Command, town: Option<string>, i: nat)
    requires cmd.Details? && k < |ps| && i < |ps|
    ensures var q := Written(ps, both, k, phone, cmd, town)[i];
            && q == ps[i].(name := q.name, settlement := q.settlement, address := q.address, floor := q.floor)
            && (PartyInv(ps[i]) ==> PartyInv(q))
  {}

  lemma WriteDetailsShape(r: Request, k: nat, phone: Phone, cmd: Command, rd: Reading) returns (town: Option<string>)
    requires cmd.Details? && k < |r.parties|
    ensures var v := WriteDetails(r, k, phone, cmd, rd);
            && v.Changed?
            && v.request == r.(status := v.request.status, parties := v.request.parties)
            && v.request.parties in {r.parties, Written(r.parties, r.representsBoth, k, phone, cmd, town)}
            && v.request.status in {Available, Human, Status.Rejected, r.status}
  {
    town := if Given(cmd.settlement) && !rd.settlementIsStreet && rd.region.Allowed? then Some(rd.region.name)
            else None;
  }

  /** Writing one side of a request nobody has approved a date of. */
  lemma WriteDetailsKeeps(r: Request, k: nat, phone: Phone, cmd: Command, rd: Reading)
    requires RequestInv(r) && !IsBooked(r) && r.proposed.None? && Undated(r.parties)
    requires cmd.Details? && k < |r.parties|
    ensures RequestInv(Stored(WriteDetails(r, k, phone, cmd, rd).request))
  {
    var q := WriteDetails(r, k, phone, cmd, rd).request;
    var town := WriteDetailsShape(r, k, phone, cmd, rd);
    forall i | 0 <= i < |r.parties|
      ensures PartyInv(q.parties[i]) && q.parties[i].scheduleDate.None?
    {
      assert r.parties[i] in r.parties;
      WrittenKeeps(r.parties, r.representsBoth, k, phone, cmd, town, i);
    }
    WrittenSides(r, q, k, phone, cmd, town);
    EditKeeps(r, q);
  }

  lemma WrittenSides(r: Request, q: Request, k: nat, phone: Phone, cmd: Command, town: Option<string>)
    requires cmd.Details? && k < |r.parties|
    requires q.parties in {r.parties, Written(r.parties, r.representsBoth, k, phone, cmd, town)}
    ensures |q.parties| == |r.parties|
    ensures forall i :: 0 <= i < |r.parties| ==>
              q.parties[i].role == r.parties[i].role && q.parties[i].phone == r.parties[i].phone
              && q.parties[i].approvedAt == r.parties[i].approvedAt
  {
    forall i | 0 <= i < |r.parties|
      ensures q.parties[i].role == r.parties[i].role && q.parties[i].phone == r.parties[i].phone
              && q.parties[i].approvedAt == r.parties[i].approvedAt
    {
      WrittenKeeps(r.parties, r.representsBoth, k, phone, cmd, town, i);
    }
  }

  /** A details command drops the proposal when it supplies something. */
  function BeforeDetails(r: Request, cmd: Command): Request
    requires cmd.Details?
  {
    if Supplies(cmd) then Invalidated(r) else r
  }

  /** What a details command leaves: the status and one side's fields. */
  lemma DetailsShape(r: Request, phone: Phone, cmd: Command, rd: Reading) returns (k: nat, town: Option<string>)
    requires cmd.Details? && ApplyDetails(r, phone, cmd, rd).Changed?
    ensures k < |r.parties|
    ensures var q, s := ApplyDetails(r, phone, cmd, rd).request, BeforeDetails(r, cmd);
            && q == s.(status := q.status, parties := q.parties)
            && q.parties in {s.parties, Written(s.parties, s.representsBoth, k, phone, cmd, town)}
            && ((q.status == r.status && !Protected(r)) || q.status in {Collecting, Available, Human, Status.Rejected})
  {
    var s := BeforeDetails(Reopened(r, phone, cmd, rd), cmd);
    k := DetailsSide(s, phone, cmd).value;
    town := WriteDetailsShape(s, k, phone, cmd, rd);
  }

  lemma InvalidatedInv(r: Request)
    requires RequestInv(r)
    ensures forall i :: 0 <= i < |r.parties| ==> PartyInv(Invalidated(r).parties[i])
  {
    forall i | 0 <= i < |r.parties| ensures PartyInv(Invalidated(r).parties[i]) {
      assert r.parties[i] in r.parties;
    }
  }

  lemma DetailsKeepSide(r: Request, k: nat, phone: Phone, cmd: Command, town: Option<string>, ps: seq<Party>, i: nat)
    requires RequestInv(r) && cmd.Details? && k < |r.parties| && i < |r.parties|
    requires ps in {Invalidated(r).parties, Written(Invalidated(r).parties, r.representsBoth, k, phone, cmd, town)}
    ensures |ps| == |r.parties| && PartyInv(ps[i])
    ensures ps[i] == r.parties[i].(name := ps[i].name, settlement := ps[i].settlement, address := ps[i].address,
                                   floor := ps[i].floor, scheduleDate := None)
  {
    InvalidatedInv(r);
    WrittenKeeps(Invalidated(r).parties, r.representsBoth, k, phone, cmd, town, i);
  }

  lemma DetailsEdits(r: Request, phone: Phone, cmd: Command, rd: Reading)
    requires RequestInv(r) && cmd.Details? && Supplies(cmd) && ApplyDetails(r, phone, cmd, rd).Changed?
    ensures Edit(r, ApplyDetails(r, phone, cmd, rd).request)
  {
    var k, town := DetailsShape(r, phone, cmd, rd);
    WrittenIsEdit(r, ApplyDetails(r, phone, cmd, rd).request, k, phone, cmd, town);
  }

  lemma WrittenIsEdit(r: Request, q: Request, k: nat, phone: Phone, cmd: Command, town: Option<string>)
    requires RequestInv(r) && cmd.Details? && k < |r.parties|
    requires var s := Invalidated(r);
             && q == s.(status := q.status, parties := q.parties)
             && q.parties in {s.parties, Written(s.parties, s.representsBoth, k, phone, cmd, town)}
    requires (q.status == r.status && !Protected(r)) || q.status in {Collecting, Available, Human, Status.Rejected}
    ensures Edit(r, q)
  {
    assert |q.parties| == |r.parties|;
    forall i | 0 <= i < |r.parties|
      ensures PartyInv(q.parties[i])
      ensures q.parties[i].role == r.parties[i].role && q.parties[i].phone == r.parties[i].phone
      ensures q.parties[i].approvedAt == r.parties[i].approvedAt && q.parties[i].scheduleDate.None?
    {
      DetailsKeepSide(r, k, phone, cmd, town, q.parties, i);
    }
  }

  /** A details command that supplies nothing changes no fact: the floor rule
      already holds. */
  lemma EmptyDetailsKeepFacts(r: Request, phone: Phone, cmd: Command, rd: Reading)
    requires RequestInv(r) && cmd.Details? && !Supplies(cmd)
    ensures var v := ApplyDetails(r, phone, cmd, rd);
            v.Changed? ==> v.request == r.(status := v.request.status)
                           && (v.request.status == r.status || v.request.status == Available)
  {
    var v := ApplyDetails(r, phone, cmd, rd);
    if v.Changed? {
      var k := DetailsSide(r, phone, cmd).value;
      assert r.parties[k] in r.parties;
      assert Written(r.parties, r.representsBoth, k, phone, cmd, None) == r.parties;
    }
  }

  lemma DetailsKeeps(r: Request, phone: Phone, cmd: Command, rd: Reading)
    requires RequestInv(r) && Visible(r) && cmd.Details?
    ensures var v := ApplyDetails(r, phone, cmd, rd); v.Changed? ==> RequestInv(Stored(v.request))
  {
    var v := ApplyDetails(r, phone, cmd, rd);
    if v.Changed? {
      if Supplies(cmd) {
        DetailsEdits(r, phone, cmd, rd);
        EditKeeps(r, v.request);
      } else {
        EmptyDetailsKeepFacts(r, phone, cmd, rd);
        StatusChangeKeeps(r, v.request);
      }
    }
  }

  lemma JudgeItemsTouches(r: Request, oldItems: seq<Item>)
    ensures var v := JudgeItems(r, oldItems);
            v.Changed? && v.request == r.(status := v.request.status, items := v.request.items)
            && v.request.status in {Status.Rejected, Human, Available, r.status}
  {}

  lemma ItemFactsShape(r: Request, phone: Phone, cmd: Command, rd: Reading)
    requires cmd.ItemFacts? && ApplyItemFacts(r, phone, cmd, rd).Changed?
    ensures var q := ApplyItemFacts(r, phone, cmd, rd).request;
            && q == Invalidated(r).(status := q.status, items := q.items)
            && !Protected(r) && q.status in {Status.Rejected, Human, Available, r.status}
  {
    var listed := if cmd.newItems.Some? then Relisted(r.items, cmd.newItems.value) else r.items;
    JudgeItemsTouches(Invalidated(r).(items := AllWithFacts(listed, cmd, rd)), r.items);
  }

  lemma ItemFactsKeeps(r: Request, phone: Phone, cmd: Command, rd: Reading)
    requires RequestInv(r) && cmd.ItemFacts?
    ensures var v := ApplyItemFacts(r, phone, cmd, rd); v.Changed? ==> RequestInv(Stored(v.request))
  {
    var v := ApplyItemFacts(r, phone, cmd, rd);
    if v.Changed? {
      ItemFactsShape(r, phone, cmd, rd);
      ItemsAreEdit(r, v.request);
      EditKeeps(r, v.request);
    }
  }

  lemma ItemsAreEdit(r: Request, q: Request)
    requires RequestInv(r) && q == Invalidated(r).(status := q.status, items := q.items)
    requires !Protected(r) && q.status in {Status.Rejected, Human, Available, r.status}
    ensures Edit(r, q)
  {
    InvalidatedInv(r);
  }

  /** Every command keeps the invariant of the request it is about. */
  lemma AppliedKeeps(r: Request, phone: Phone, cmd: Command, rd: Reading, now: Now, time: int)
    requires RequestInv(r) && Visible(r)
    ensures var v := Applied(r, phone, cmd, rd, now, time); v.Changed? ==> RequestInv(Stored(v.request))
  {
    var v := Applied(r, phone, cmd, rd, now, time);
    if v.Changed? {
      match cmd
      case Details(_, _, _, _, _, _) => DetailsKeeps(r, phone, cmd, rd);
      case ItemFacts(_, _, _, _, _, _, _, _) => ItemFactsKeeps(r, phone, cmd, rd);
      case Counterparty(_, _, _) => CounterpartyKeeps(r, phone, cmd, rd, time);
      case ApproveSelf(_) => SelfApprovalKeeps(r, phone, rd, time);
      case ApproveSchedule(_, date) => DateApprovalKeeps(r, phone, date, rd);
      case Cancel(_, choice) => CancelKeeps(r, choice, rd, now);
      case ContactCounterparty(_, contact) =>
        assert HasPhone(r.parties, phone);
        ContactKeeps(r, phone, contact, rd);
      case ConfirmCounterparty(_, accept) => ConfirmationKeeps(r, accept, rd);
      case ClarifyDuplicate(_) => StatusChangeKeeps(r, r);
      case CounterpartyCandidate(_, _, _) => StatusChangeKeeps(r, r);
      case Escalate(_, _) => StatusChangeKeeps(r, v.request);
      case Next => StatusChangeKeeps(r, r);
      case _ =>
    }
  }

  /** The verdict books nothing, and leaves a booked request as it is. */
  predicate Frozen(r: Request, v: Verdict) {
    v.Changed? && (IsBooked(v.request) || IsBooked(r)) ==> v.request == r
  }

  lemma DetailsFrozen(r: Request, phone: Phone, cmd: Command, rd: Reading)
    requires RequestInv(r) && cmd.Details?
    ensures Frozen(r, ApplyDetails(r, phone, cmd, rd))
  {
    if ApplyDetails(r, phone, cmd, rd).Changed? {
      if Supplies(cmd) { var k, town := DetailsShape(r, phone, cmd, rd); }
      else { EmptyDetailsKeepFacts(r, phone, cmd, rd); }
    }
  }

  lemma ItemFactsFrozen(r: Request, phone: Phone, cmd: Command, rd: Reading)
    requires cmd.ItemFacts?
    ensures Frozen(r, ApplyItemFacts(r, phone, cmd, rd))
  {
    if ApplyItemFacts(r, phone, cmd, rd).Changed? { ItemFactsShape(r, phone, cmd, rd); }
  }

  lemma CounterpartyFrozen(r: Request, phone: Phone, cmd: Command, rd: Reading, time: int)
    requires RequestInv(r) && cmd.Counterparty?
    ensures Frozen(r, ApplyCounterparty(r, phone, cmd, rd, time))
  {
    if ApplyCounterparty(r, phone, cmd, rd, time).Changed? && Given(cmd.phone) {
      var p := CounterpartyLinks(r, phone, cmd, rd, time);
    }
  }

  lemma ContactFrozen(r: Request, phone: Phone, contact: bool, rd: Reading)
    requires RequestInv(r) && HasPhone(r.parties, phone)
    ensures Frozen(r, ApplyContact(r, phone, contact, rd))
  {}

  lemma ConfirmationFrozen(r: Request, accept: bool, rd: Reading)
    requires RequestInv(r)
    ensures Frozen(r, ApplyConfirmation(r, accept, rd))
  {
    RolesPresent(r.parties);
  }

  /** No command books a request, and the only way a command changes a booked
      one is to cancel it. */
  lemma BookedIsFrozen(r: Request, phone: Phone, cmd: Command, rd: Reading, now: Now, time: int)
    requires RequestInv(r) && Visible(r)
    ensures var v := Applied(r, phone, cmd, rd, now, time);
            && (!cmd.Cancel? ==> Frozen(r, v))
            && (cmd.Cancel? && v.Changed? ==> v.request.status in {CancelPending, Cancelled, AwaitingApproval}
                                              && !IsBooked(v.request) && v.request.proposed.None?
                                              && Undated(v.request.parties)
                                              && v.request.items == r.items)
  {
    if OwnParty(r.parties, phone, None).Some? {
      match cmd
      case Details(_, _, _, _, _, _) => DetailsFrozen(r, phone, cmd, rd);
      case ItemFacts(_, _, _, _, _, _, _, _) => ItemFactsFrozen(r, phone, cmd, rd);
      case Counterparty(_, _, _) => CounterpartyFrozen(r, phone, cmd, rd, time);
      case ContactCounterparty(_, contact) =>
        assert HasPhone(r.parties, phone);
        ContactFrozen(r, phone, contact, rd);
      case ConfirmCounterparty(_, accept) => ConfirmationFrozen(r, accept, rd);
      case Cancel(_, choice) => CancelFrees(r, choice, rd, now);
      case _ =>
    }
  }

  lemma CancelFrees(r: Request, choice: CancelChoice, rd: Reading, now: Now)
    requires RequestInv(r)
    ensures var v := ApplyCancel(r, choice, rd, now);
            v.Changed? ==> v.request.status in {CancelPending, Cancelled, AwaitingApproval}
                           && !IsBooked(v.request) && v.request.proposed.None? && Undated(v.request.parties)
                           && v.request.items == r.items
  {
    InvalidatedKeepsParties(r);
  }

  // ------------------------------------------------ what any command may do

  /** How a side's approved date may move under one command: it is dropped, it
      is kept with its consent, or the side's own phone has just approved the
      live proposal. */
  predicate DateMoves(r: Request, q: Request, i: nat, phone: Phone, cmd: Command)
    requires i < |r.parties| && i < |q.parties|
  {
    var before, after := r.parties[i], q.parties[i];
    || after.scheduleDate.None?
    || (after.scheduleDate == before.scheduleDate && ConsentOf(q, after.role) == ConsentOf(r, after.role))
    || (&& cmd.ApproveSchedule? && after.phone == phone
        && r.proposed == Some(cmd.date) == after.scheduleDate
        && ConsentOf(q, after.role) == Some(Consent(phone, cmd.date, FactsOf(r))))
  }

  function ConsentOf(r: Request, role: Role): Option<Consent> {
    if role in r.consents then Some(r.consents[role]) else None
  }

  /** Sides are only added, never replaced; no command makes a proposal; only
      asking to cancel moves the earliest date, and only cancelling the run date. */
  predicate Evolves(r: Request, q: Request, phone: Phone, cmd: Command) {
    && q.version == r.version
    && |r.parties| <= |q.parties|
    && (forall i :: 0 <= i < |r.parties| ==>
          && q.parties[i].role == r.parties[i].role && q.parties[i].phone == r.parties[i].phone
          && DateMoves(r, q, i, phone, cmd))
    && (forall i :: |r.parties| <= i < |q.parties| ==> q.parties[i].scheduleDate.None?)
    && (q.proposed.None? || q.proposed == r.proposed)
    && (q.earliest == r.earliest || (cmd.Cancel? && cmd.choice == CancelChoice.Ask))
    && (q.runDate == r.runDate || (q.runDate.None? && cmd.Cancel? && cmd.choice != CancelChoice.NextWeek))
  }

  lemma DetailsEvolves(r: Request, phone: Phone, cmd: Command, rd: Reading)
    requires cmd.Details?
    ensures var v := ApplyDetails(r, phone, cmd, rd); v.Changed? ==> Evolves(r, v.request, phone, cmd)
  {
    if ApplyDetails(r, phone, cmd, rd).Changed? {
      var k, town := DetailsShape(r, phone, cmd, rd);
      WrittenEvolves(r, ApplyDetails(r, phone, cmd, rd).request, phone, cmd, k, town);
    }
  }

  lemma WrittenEvolves(r: Request, q: Request, phone: Phone, cmd: Command, k: nat, town: Option<string>)
    requires cmd.Details? && k < |r.parties|
    requires var s := BeforeDetails(r, cmd);
             && q == s.(status := q.status, parties := q.parties)
             && q.parties in {s.parties, Written(s.parties, s.representsBoth, k, phone, cmd, town)}
    ensures Evolves(r, q, phone, cmd)
  {
    var s := BeforeDetails(r, cmd);
    forall i | 0 <= i < |r.parties|
      ensures q.parties[i].role == r.parties[i].role && q.parties[i].phone == r.parties[i].phone
      ensures q.parties[i].scheduleDate == s.parties[i].scheduleDate
    {
      WrittenKeeps(s.parties, s.representsBoth, k, phone, cmd, town, i);
    }
  }

  lemma ItemFactsEvolves(r: Request, phone: Phone, cmd: Command, rd: Reading)
    requires cmd.ItemFacts?
    ensures var v := ApplyItemFacts(r, phone, cmd, rd); v.Changed? ==> Evolves(r, v.request, phone, cmd)
  {
    if ApplyItemFacts(r, phone, cmd, rd).Changed? { ItemFactsShape(r, phone, cmd, rd); }
  }

  lemma CounterpartyEvolves(r: Request, phone: Phone, cmd: Command, rd: Reading, time: int)
    requires RequestInv(r) && cmd.Counterparty?
    ensures var v := ApplyCounterparty(r, phone, cmd, rd, time); v.Changed? ==> Evolves(r, v.request, phone, cmd)
  {
    if ApplyCounterparty(r, phone, cmd, rd, time).Changed? && Given(cmd.phone) {
      var p := CounterpartyLinks(r, phone, cmd, rd, time);
    }
  }

  lemma RecordedConsents(r: Request, phone: Phone, date: Date, i: nat)
    requires Ordered(r.parties) && i < |r.parties|
    ensures var q := r.(consents := Recorded(r, phone, date));
            ConsentOf(q, r.parties[i].role) ==
              if r.parties[i].phone == phone then Some(Consent(phone, date, FactsOf(r)))
              else ConsentOf(r, r.parties[i].role)
  {
    assert r.parties[i] in r.parties;
    RolesOfSender(r.parties, phone);
  }

  lemma DateApprovalEvolves(r: Request, phone: Phone, cmd: Command, rd: Reading)
    requires Ordered(r.parties) && cmd.ApproveSchedule?
    ensures var v := ApplyDateApproval(r, phone, cmd.date, rd); v.Changed? ==> Evolves(r, v.request, phone, cmd)
  {
    var v := ApplyDateApproval(r, phone, cmd.date, rd);
    if v.Changed? {
      var q := v.request;
      assert q == r.(status := q.status, parties := AllDated(r.parties, phone, r.proposed),
                     consents := Recorded(r, phone, cmd.date));
      forall i | 0 <= i < |r.parties| ensures DateMoves(r, q, i, phone, cmd) {
        RecordedConsents(r, phone, cmd.date, i);
      }
    }
  }

  lemma CancelEvolves(r: Request, phone: Phone, cmd: Command, rd: Reading, now: Now)
    requires cmd.Cancel?
    ensures var v := ApplyCancel(r, cmd.choice, rd, now); v.Changed? ==> Evolves(r, v.request, phone, cmd)
  {}

  lemma ContactEvolves(r: Request, phone: Phone, cmd: Command, contact: bool, rd: Reading)
    ensures var v := ApplyContact(r, phone, contact, rd); v.Changed? ==> Evolves(r, v.request, phone, cmd)
  {}

  lemma ConfirmationEvolves(r: Request, phone: Phone, cmd: Command, accept: bool, rd: Reading)
    ensures var v := ApplyConfirmation(r, accept, rd); v.Changed? ==> Evolves(r, v.request, phone, cmd)
  {}

  lemma SelfApprovalEvolves(r: Request, phone: Phone, cmd: Command, rd: Reading, time: int)
    ensures var v := ApplySelfApproval(r, phone, rd, time); v.Changed? ==> Evolves(r, v.request, phone, cmd)
  {}

  lemma AppliedEvolves(r: Request, phone: Phone, cmd: Command, rd: Reading, now: Now, time: int)
    requires RequestInv(r)
    ensures var v := Applied(r, phone, cmd, rd, now, time); v.Changed? ==> Evolves(r, v.request, phone, cmd)
  {
    if OwnParty(r.parties, phone, None).Some? {
      match cmd
      case Details(_, _, _, _, _, _) => DetailsEvolves(r, phone, cmd, rd);
      case ItemFacts(_, _, _, _, _, _, _, _) => ItemFactsEvolves(r, phone, cmd, rd);
      case Counterparty(_, _, _) => CounterpartyEvolves(r, phone, cmd, rd, time);
      case ApproveSchedule(_, _) => DateApprovalEvolves(r, phone, cmd, rd);
      case ApproveSelf(_) => SelfApprovalEvolves(r, phone, cmd, rd, time);
      case Cancel(_, _) => CancelEvolves(r, phone, cmd, rd, now);
      case ContactCounterparty(_, contact) => ContactEvolves(r, phone, cmd, contact, rd);
      case ConfirmCounterparty(_, accept) => ConfirmationEvolves(r, phone, cmd, accept, rd);
      case _ => StatusEvolves(r, r.(status := Human), phone, cmd);
    }
  }

  lemma StatusEvolves(r: Request, q: Request, phone: Phone, cmd: Command)
    requires q == r.(status := q.status)
    ensures Evolves(r, r, phone, cmd) && Evolves(r, q, phone, cmd)
  {}

  lemma OpenedKeeps(phone: Phone, cmd: Command, rd: Reading, time: int)
    requires cmd.Donate? || cmd.ReceiveFromDonor?
    ensures var v := Opened(phone, cmd, rd, time); v.Changed? ==> RequestInv(Stored(v.request))
  {
    var v := Opened(phone, cmd, rd, time);
    if v.Changed? { NewRequestInv(v.request); }
  }

  /** A new request of one or two sides nobody has approved a date on. */
  lemma NewRequestInv(q: Request)
    requires q.status == Collecting && !q.verificationContacted
    requires q.proposed.None? && q.runDate.None? && q.earliest.None?
    requires 1 <= |q.parties| <= 2 && (|q.parties| == 2 ==> q.parties[1].role == Opposite(q.parties[0].role))
    requires forall i :: 0 <= i < |q.parties| ==> PartyInv(q.parties[i]) && q.parties[i].scheduleDate.None?
    requires q.representsBoth <==> |q.parties| == 2 && q.parties[0].phone == q.parties[1].phone
    requires q.representsBoth ==> (q.parties[0].approvedAt.Some? <==> q.parties[1].approvedAt.Some?)
    ensures RequestInv(Stored(q))
  {}

  // -------------------------------------------------------- the store's steps

  /** Offering a new date drops every older approval. */
  lemma OfferKeeps(r: Request, date: Date)
    requires RequestInv(r) && |r.parties| == 2 && !IsBooked(r)
    requires Tuesday(date) && (r.earliest.Some? ==> r.earliest.value <= date)
    ensures var q := r.(proposed := Some(date), status := AwaitingApproval, parties := ClearedDates(r.parties));
            RequestInv(Stored(q))
  {
    var q := r.(proposed := Some(date), status := AwaitingApproval, parties := ClearedDates(r.parties));
    forall i | 0 <= i < |q.parties| ensures PartyInv(q.parties[i]) {
      assert r.parties[i] in r.parties;
    }
  }

  /** Booking turns the agreed proposal into the run date. */
  lemma BookKeeps(r: Request, date: Date)
    requires RequestInv(r) && ReadyToCoordinate(r) && r.proposed == Some(date)
    ensures RequestInv(Stored(r.(status := Coordinated, runDate := Some(date), proposed := None)))
  {
    var q := r.(status := Coordinated, runDate := Some(date), proposed := None);
    SameFacts(r, Stored(q));
    forall p | p in q.parties && p.scheduleDate.Some? ensures FreshConsent(Stored(q), p) {
      assert FreshConsent(r, p);
    }
  }
}
