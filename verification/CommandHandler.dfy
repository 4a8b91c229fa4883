/** Commands.apply written as the program runs it: branch by branch on the
    loaded request, with its loops over parties and items. Each branch is
    proved to leave exactly the request that module Commands describes. */
module CommandHandler {
  import opened Types
  import opened Policies
  import opened Commands
  import Booking
  import Lifecycle

  method InvalidateProposal(r0: Request) returns (r: Request)
    ensures r == Invalidated(r0)
  {
    r := r0.(proposed := None);
    for i := 0 to |r0.parties|
      invariant |r.parties| == |r0.parties| && r == r0.(proposed := None, parties := r.parties)
      invariant forall j :: 0 <= j < i ==> r.parties[j] == r0.parties[j].(scheduleDate := None)
      invariant forall j :: i <= j < |r0.parties| ==> r.parties[j] == r0.parties[j]
    {
      r := r.(parties := r.parties[i := r.parties[i].(scheduleDate := None)]);
    }
    assert r.parties == ClearedDates(r0.parties);
  }

  method NameSamePerson(ps0: seq<Party>, phone: Phone, name: Option<string>) returns (ps: seq<Party>)
    ensures ps == Named(ps0, phone, name)
  {
    ps := ps0;
    for i := 0 to |ps0|
      invariant |ps| == |ps0|
      invariant forall j :: 0 <= j < i ==> ps[j] == Named(ps0, phone, name)[j]
      invariant forall j :: i <= j < |ps0| ==> ps[j] == ps0[j]
    {
      if ps[i].phone == phone { ps := ps[i := ps[i].(name := name)]; }
    }
    assert ps == Named(ps0, phone, name);
  }

  method AssumeWorking(items0: seq<Item>) returns (items: seq<Item>)
    ensures items == WorkingByDefault(items0)
  {
    items := items0;
    for i := 0 to |items0|
      invariant |items| == |items0|
      invariant forall j :: 0 <= j < i ==> items[j] == WorkingByDefault(items0)[j]
      invariant forall j :: i <= j < |items0| ==> items[j] == items0[j]
    {
      if items[i].working.None? { items := items[i := items[i].(working := Some(true))]; }
    }
    assert items == WorkingByDefault(items0);
  }

  /** The side stays who it is and keeps its approvals and its rules. */
  predicate KeptSide(p: Party, q: Party) {
    && q == p.(name := q.name, settlement := q.settlement, address := q.address, floor := q.floor)
    && (Lifecycle.PartyInv(p) ==> Lifecycle.PartyInv(q))
  }

  /** The field assignments of a details command on side k; another side gets
      the name when it is the same person. */
  method WriteFields(ps0: seq<Party>, both: bool, k: nat, phone: Phone, cmd: Command, town: Option<string>)
    returns (ps: seq<Party>)
    requires cmd.Details? && k < |ps0|
    ensures ps == Written(ps0, both, k, phone, cmd, town)
    ensures forall i :: 0 <= i < |ps0| ==> KeptSide(ps0[i], ps[i])
    ensures forall i :: 0 <= i < |ps0| && i != k ==>
              ps[i] == ps0[i] || (both && ps0[i].phone == phone && ps[i] == ps0[i].(name := cmd.name))
  {
    forall i | 0 <= i < |ps0| ensures KeptSide(ps0[i], Written(ps0, both, k, phone, cmd, town)[i]) {
      Lifecycle.WrittenKeeps(ps0, both, k, phone, cmd, town, i);
    }
    var p := ps0[k];
    if town.Some? { p := p.(settlement := town); }
    if Given(cmd.name) { p := p.(name := cmd.name); }
    ps := ps0[k := p];
    if Given(cmd.name) && both { ps := NameSamePerson(ps, phone, cmd.name); }
    p := ps[k];
    if Given(cmd.address) { p := p.(address := Some(Trim(cmd.address.value))); }
    if Given(p.settlement) && p.settlement != Some(BEIT_SHEAN) {
      p := p.(floor := Some(0));
    } else if p.settlement == Some(BEIT_SHEAN) && cmd.floor.Some? {
      p := p.(floor := cmd.floor);
    }
    ps := ps[k := p];
  }

  /** A sound request that is not booked and whose date nobody has approved. */
  predicate Open(r: Request) {
    Lifecycle.RequestInv(r) && !Lifecycle.IsBooked(r) && r.proposed.None? && Lifecycle.Undated(r.parties)
  }

  method WriteSide(r0: Request, k: nat, phone: Phone, cmd: Command, rd: Reading) returns (v: Verdict)
    requires cmd.Details? && k < |r0.parties|
    ensures v == WriteDetails(r0, k, phone, cmd, rd)
    ensures Open(r0) ==> Lifecycle.RequestInv(Booking.Stored(v.request))
  {
    if Open(r0) { Lifecycle.WriteDetailsKeeps(r0, k, phone, cmd, rd); }
    var town := None;
    if Given(cmd.settlement) && !rd.settlementIsStreet {
      match rd.region {
        case Outside => return Changed(r0.(status := Status.Rejected), false);
        case Review => return Changed(r0.(status := Human), true);
        case Allowed(name) => town := Some(name);
      }
    }
    var ps := WriteFields(r0.parties, r0.representsBoth, k, phone, cmd, town);
    var r := r0.(parties := ps);
    if Given(cmd.address) && rd.streetUnknown { return Changed(r, false); }
    v := Settle(r);
  }

  method Details(r0: Request, phone: Phone, cmd: Command, rd: Reading) returns (v: Verdict)
    requires cmd.Details?
    ensures v == ApplyDetails(r0, phone, cmd, rd)
    ensures Lifecycle.RequestInv(r0) && Booking.Visible(r0) && v.Changed? ==>
              Lifecycle.RequestInv(Booking.Stored(v.request))
  {
    if Lifecycle.RequestInv(r0) && Booking.Visible(r0) { Lifecycle.DetailsKeeps(r0, phone, cmd, rd); }
    var r := r0;
    if r.status == Status.Rejected && Given(cmd.settlement) && rd.correctionWords && HasPhone(r.parties, phone) {
      if rd.lastEventOutside && rd.region.Allowed? { r := r.(status := Collecting); }
    }
    assert r == Reopened(r0, phone, cmd, rd);
    if Protected(r) { return Refused; }
    if Given(cmd.name) || Given(cmd.settlement) || Given(cmd.address) || cmd.floor.Some? {
      r := InvalidateProposal(r);
    }
    var side := DetailsSide(r, phone, cmd);
    if side.None? { return Refused; }
    v := WriteSide(r, side.value, phone, cmd, rd);
  }

  /** The loop body of item_facts: a yes the message does not confirm is refused. */
  method UpdateItem(i0: Item, cmd: Command, rd: Reading) returns (ok: bool, i: Item)
    requires cmd.ItemFacts?
    ensures ok <==> !Unconfirmed(cmd, rd)
    ensures ok ==> i == WithFacts(i0, cmd, rd)
  {
    i := i0;
    if cmd.free.Some? {
      if cmd.free.value && !rd.freeConfirmed { return false, i; }
      i := i.(free := cmd.free);
    }
    if cmd.working.Some? {
      if cmd.working.value && !rd.workingConfirmed { return false, i; }
      i := i.(working := cmd.working);
    }
    if rd.brokenWords { i := i.(working := Some(false)); }
    if i.kind == Wardrobe {
      if cmd.smallWhole.Some? { i := i.(smallWhole := cmd.smallWhole); }
      if cmd.needsDisassembly.Some? { i := i.(needsDisassembly := cmd.needsDisassembly); }
    } else if Appliance(i) {
      i := i.(needsDisassembly := Some(false));
    } else if cmd.needsDisassembly.Some? {
      i := i.(needsDisassembly := cmd.needsDisassembly);
    }
    if i.kind == Oven && cmd.ovenType.Some? { i := i.(ovenType := cmd.ovenType); }
    if cmd.evacuation.Some? { i := i.(evacuation := cmd.evacuation); }
    ok := true;
  }

  method UpdateItems(items0: seq<Item>, cmd: Command, rd: Reading) returns (ok: bool, items: seq<Item>)
    requires cmd.ItemFacts?
    ensures ok <==> items0 == [] || !Unconfirmed(cmd, rd)
    ensures ok ==> items == AllWithFacts(items0, cmd, rd)
  {
    items := items0;
    for n := 0 to |items0|
      invariant |items| == |items0|
      invariant forall j :: 0 <= j < n ==> items[j] == WithFacts(items0[j], cmd, rd)
      invariant forall j :: n <= j < |items0| ==> items[j] == items0[j]
      invariant n > 0 ==> !Unconfirmed(cmd, rd)
    {
      var fine, i := UpdateItem(items[n], cmd, rd);
      if !fine { return false, items; }
      items := items[n := i];
    }
    ok := true;
    assert items == AllWithFacts(items0, cmd, rd);
  }

  method ItemFacts(r0: Request, phone: Phone, cmd: Command, rd: Reading) returns (v: Verdict)
    requires cmd.ItemFacts?
    ensures v == ApplyItemFacts(r0, phone, cmd, rd)
    ensures Lifecycle.RequestInv(r0) && v.Changed? ==> Lifecycle.RequestInv(Booking.Stored(v.request))
  {
    if Lifecycle.RequestInv(r0) { Lifecycle.ItemFactsKeeps(r0, phone, cmd, rd); }
    if Protected(r0) { return Refused; }
    var r := InvalidateProposal(r0);
    SameOwner(r0.parties, r.parties, phone, Some(Donor));
    if OwnParty(r.parties, phone, Some(Donor)).None? { return Refused; }
    var items := if cmd.newItems.Some? then Relisted(r0.items, cmd.newItems.value) else r0.items;
    var ok, updated := UpdateItems(items, cmd, rd);
    if !ok { return Refused; }
    v := JudgeItems(r.(items := updated), r0.items);
  }

  /** Dropping approvals changes nobody's side. */
  lemma {:induction false} SameMine(
    ps: seq<Party>, qs: seq<Party>, phone: Phone, role: Option<Role>, onlyIncomplete: bool, k: nat)
    requires |ps| == |qs| && k <= |ps| && forall i :: 0 <= i < |ps| ==> qs[i] == ps[i].(scheduleDate := None)
    ensures FirstMine(ps, phone, role, onlyIncomplete, k) == FirstMine(qs, phone, role, onlyIncomplete, k)
    decreases |ps| - k
  {
    if k == |ps| {
    } else {
      SameMine(ps, qs, phone, role, onlyIncomplete, k + 1);
    }
  }

  lemma SameOwner(ps: seq<Party>, qs: seq<Party>, phone: Phone, role: Option<Role>)
    requires |ps| == |qs| && forall i :: 0 <= i < |ps| ==> qs[i] == ps[i].(scheduleDate := None)
    ensures OwnParty(ps, phone, role) == OwnParty(qs, phone, role)
  {
    SameMine(ps, qs, phone, role, true, 0);
    SameMine(ps, qs, phone, role, false, 0);
  }

  /** Adding the other side, and what follows from it. */
  method Link(r0: Request, p: Party) returns (r: Request)
    ensures r == WithOther(r0, p)
    ensures Lifecycle.RequestInv(r0) && Lifecycle.MayJoin(r0, p) ==> Lifecycle.RequestInv(Booking.Stored(r))
  {
    if Lifecycle.RequestInv(r0) && Lifecycle.MayJoin(r0, p) { Lifecycle.WithOtherKeeps(r0, p); }
    r := r0.(parties := r0.parties + [p]);
    r := InvalidateProposal(r);
    if p.role == Receiver {
      var items := AssumeWorking(r.items);
      r := r.(items := items);
    }
    r := r.(origin := Direct);
    if |r.parties| == 2 && r.parties[0].phone == r.parties[1].phone { r := r.(representsBoth := true); }
  }

  method Counterparty(r0: Request, phone: Phone, cmd: Command, rd: Reading, time: int) returns (v: Verdict)
    requires cmd.Counterparty?
    ensures v == ApplyCounterparty(r0, phone, cmd, rd, time)
    ensures Lifecycle.RequestInv(r0) && v.Changed? ==> Lifecycle.RequestInv(Booking.Stored(v.request))
  {
    if Lifecycle.RequestInv(r0) { Lifecycle.CounterpartyKeeps(r0, phone, cmd, rd, time); }
    if Protected(r0) { return Refused; }
    var own := OwnParty(r0.parties, phone, None);
    if own.None? { return Refused; }
    var role := if r0.parties[own.value].role == Donor then Receiver else Donor;
    if !Given(cmd.phone) {
      if role != Receiver || !Given(cmd.name) { return Refused; }
      return Changed(r0, false);
    }
    var supplied := SuppliedPhone(cmd.phone.value, rd);
    if supplied.None? { return Refused; }
    var other := FirstWithRole(r0.parties, role, 0);
    if other.Some? {
      if r0.parties[other.value].phone == supplied.value { return Unsaved; }
      return Refused;
    }
    var r := Link(r0, OtherSide(r0, role, supplied.value, phone, cmd, rd, time));
    v := Settle(r);
  }

  method ApproveSelf(r0: Request, phone: Phone, rd: Reading, time: int) returns (v: Verdict)
    ensures v == ApplySelfApproval(r0, phone, rd, time)
    ensures Lifecycle.RequestInv(r0) && v.Changed? ==> Lifecycle.RequestInv(Booking.Stored(v.request))
  {
    if Lifecycle.RequestInv(r0) { Lifecycle.SelfApprovalKeeps(r0, phone, rd, time); }
    if Protected(r0) || !rd.explicitApproval { return Refused; }
    var ps := r0.parties;
    for i := 0 to |ps|
      invariant |ps| == |r0.parties|
      invariant forall j :: 0 <= j < i ==> ps[j] == SelfApproved(r0.parties[j], phone, time)
      invariant forall j :: i <= j < |ps| ==> ps[j] == r0.parties[j]
    {
      if ps[i].phone == phone {
        if ps[i].approvedAt.None? { ps := ps[i := ps[i].(approvedAt := Some(time))]; }
        ps := ps[i := ps[i].(approvedBy := Some(phone))];
      }
    }
    assert ps == AllSelfApproved(r0.parties, phone, time);
    v := Settle(r0.(parties := ps));
  }

  method ApproveSchedule(r0: Request, phone: Phone, date: Date, rd: Reading) returns (v: Verdict)
    ensures v == ApplyDateApproval(r0, phone, date, rd)
    ensures Lifecycle.RequestInv(r0) && v.Changed? ==> Lifecycle.RequestInv(Booking.Stored(v.request))
  {
    if Lifecycle.RequestInv(r0) { Lifecycle.DateApprovalKeeps(r0, phone, date, rd); }
    if Protected(r0) { return Refused; }
    if r0.proposed.None? || date != r0.proposed.value || !rd.explicitApproval || !rd.dateQuoted { return Refused; }
    var own := OwnParty(r0.parties, phone, None);
    if own.None? || r0.parties[own.value].approvedAt.None? { return Refused; }
    var ps := r0.parties;
    for i := 0 to |ps|
      invariant |ps| == |r0.parties|
      invariant forall j :: 0 <= j < i ==> ps[j] == AllDated(r0.parties, phone, r0.proposed)[j]
      invariant forall j :: i <= j < |ps| ==> ps[j] == r0.parties[j]
    {
      if ps[i].phone == phone { ps := ps[i := ps[i].(scheduleDate := r0.proposed)]; }
    }
    assert ps == AllDated(r0.parties, phone, r0.proposed);
    v := Settle(r0.(parties := ps, consents := Recorded(r0, phone, date)));
  }

  method Cancel(r0: Request, choice: CancelChoice, rd: Reading, now: Now) returns (v: Verdict)
    ensures v == ApplyCancel(r0, choice, rd, now)
    ensures Lifecycle.RequestInv(r0) && Booking.Visible(r0) && v.Changed? ==>
              Lifecycle.RequestInv(Booking.Stored(v.request))
  {
    if Lifecycle.RequestInv(r0) && Booking.Visible(r0) { Lifecycle.CancelKeeps(r0, choice, rd, now); }
    var r := InvalidateProposal(r0);
    match choice {
      case Ask =>
        if !rd.cancelWords { return Refused; }
        var base := if r0.runDate.Some? then r0.runDate.value else NextTuesday(now);
        v := Changed(r.(earliest := Some(base + 7), runDate := None, status := CancelPending), false);
      case Final =>
        if !rd.finalWords { return Refused; }
        v := Changed(r.(runDate := None, status := Cancelled), false);
      case NextWeek =>
        if r0.status != CancelPending { return Refused; }
        if !rd.rescheduleWords { return Refused; }
        v := Changed(r.(status := AwaitingApproval), false);
    }
  }

  method ContactCounterparty(r0: Request, phone: Phone, contact: bool, rd: Reading) returns (v: Verdict)
    ensures v == ApplyContact(r0, phone, contact, rd)
    ensures Lifecycle.RequestInv(r0) && Booking.Visible(r0) && HasPhone(r0.parties, phone) && v.Changed? ==>
              Lifecycle.RequestInv(Booking.Stored(v.request))
  {
    if Lifecycle.RequestInv(r0) && Booking.Visible(r0) && HasPhone(r0.parties, phone) {
      Lifecycle.ContactKeeps(r0, phone, contact, rd);
    }
    if r0.origin != Direct || !HasOther(r0.parties, phone) { return Refused; }
    if r0.verificationContacted || rd.contactedBefore { return Changed(r0, false); }
    var r := r0.(verificationContacted := contact);
    if !contact { r := InvalidateProposal(r); }
    v := Changed(r, false);
  }

  method ConfirmCounterparty(r0: Request, accept: bool, rd: Reading) returns (v: Verdict)
    ensures v == ApplyConfirmation(r0, accept, rd)
    ensures Lifecycle.RequestInv(r0) && v.Changed? ==> Lifecycle.RequestInv(Booking.Stored(v.request))
  {
    if Lifecycle.RequestInv(r0) { Lifecycle.ConfirmationKeeps(r0, accept, rd); }
    if rd.pendingPhone.None? { return Refused; }
    if !accept { return Changed(r0, false); }
    if HasRole(r0.parties, Receiver) { return Refused; }
    var receiver := NewParty(Receiver, rd.pendingPhone.value, false, 0).(name := rd.pendingName);
    var items := AssumeWorking(r0.items);
    v := Changed(r0.(parties := r0.parties + [receiver], origin := Direct, items := items), false);
  }

  lemma ApplyKeeps(r: Request, phone: Phone, cmd: Command, rd: Reading, now: Now, time: int)
    ensures Lifecycle.RequestInv(r) && Booking.Visible(r) && Applied(r, phone, cmd, rd, now, time).Changed? ==>
              Lifecycle.RequestInv(Booking.Stored(Applied(r, phone, cmd, rd, now, time).request))
  {
    if Lifecycle.RequestInv(r) && Booking.Visible(r) { Lifecycle.AppliedKeeps(r, phone, cmd, rd, now, time); }
  }

  method Apply(r: Request, phone: Phone, cmd: Command, rd: Reading, now: Now, time: int) returns (v: Verdict)
    ensures v == Applied(r, phone, cmd, rd, now, time)
    ensures Lifecycle.RequestInv(r) && Booking.Visible(r) && v.Changed? ==>
              Lifecycle.RequestInv(Booking.Stored(v.request))
  {
    ApplyKeeps(r, phone, cmd, rd, now, time);
    if OwnParty(r.parties, phone, None).None? { return Refused; }
    match cmd {
      case Details(_, _, _, _, _, _) => v := Details(r, phone, cmd, rd);
      case ItemFacts(_, _, _, _, _, _, _, _) => v := ItemFacts(r, phone, cmd, rd);
      case Counterparty(_, _, _) => v := Counterparty(r, phone, cmd, rd, time);
      case ApproveSelf(_) => v := ApproveSelf(r, phone, rd, time);
      case ApproveSchedule(_, date) => v := ApproveSchedule(r, phone, date, rd);
      case Cancel(_, choice) => v := Cancel(r, choice, rd, now);
      case ContactCounterparty(_, contact) => v := ContactCounterparty(r, phone, contact, rd);
      case ConfirmCounterparty(_, accept) => v := ConfirmCounterparty(r, accept, rd);
      case Escalate(_, _) => v := Changed(if r.status != Coordinated then r.(status := Human) else r, true);
      case CounterpartyCandidate(_, candidate, _) =>
        v := if HasRole(r.parties, Receiver) || SuppliedPhone(candidate, rd).None? then Refused else Changed(r, false);
      case ClarifyDuplicate(_) => v := Changed(r, false);
      case Next => v := Changed(r, false);
      case _ => v := Unsaved;
    }
  }
}
