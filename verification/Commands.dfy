/** Commands.apply (src/application/commands.ts) on the one request a command
    is about: what each command leaves in that request, or that it refuses. */
module Commands {
  import opened Types
  import opened Policies
  import Phones

  /** How store.region classifies a settlement name. */
  datatype Region = Allowed(name: string) | Outside | Review

  /** Everything a command reads besides the request: which words the message
      holds, what the previous bot message said, and what the lookups return.
      All of it is arbitrary here. */
  datatype Reading = Reading(
    target: Option<nat>,
    donationWords: bool, newRequestWords: bool, duplicate: Option<nat>,
    phoneSupplied: bool, presented: bool,
    correctionWords: bool, lastEventOutside: bool,
    region: Region, settlementIsStreet: bool, streetUnknown: bool,
    freeConfirmed: bool, workingConfirmed: bool, brokenWords: bool,
    contactName: Option<string>, pendingName: Option<string>, pendingPhone: Option<Phone>,
    contactedBefore: bool,
    explicitApproval: bool, dateQuoted: bool,
    cancelWords: bool, finalWords: bool, rescheduleWords: bool)

  /** A command of a plan, with what it will read when it runs. */
  type Planned = (Command, Reading)

  /** Refused is a thrown AppError, which rolls the whole plan back. Unsaved is
      an answer without a request. Changed is the request to save; a handoff
      also carries a reason for the human operator, which ends the plan. */
  datatype Verdict = Refused | Unsaved | Changed(request: Request, handoff: bool)

  // ------------------------------------------------------------ party updates

  function NewParty(role: Role, phone: Phone, approved: bool, time: int): Party {
    Party(role, phone, None, None, None, None, false,
          if approved then Some(time) else None, if approved then Some(phone) else None, None)
  }

  function ClearedDates(ps: seq<Party>): (qs: seq<Party>)
    ensures |qs| == |ps|
    ensures forall i :: 0 <= i < |ps| ==> qs[i] == ps[i].(scheduleDate := None)
  {
    seq(|ps|, i requires 0 <= i < |ps| => ps[i].(scheduleDate := None))
  }

  /** invalidateProposal: no proposal, and nobody has approved a date. */
  function Invalidated(r: Request): Request {
    r.(proposed := None, parties := ClearedDates(r.parties))
  }

  function Named(ps: seq<Party>, phone: Phone, name: Option<string>): (qs: seq<Party>)
    ensures |qs| == |ps|
    ensures forall i :: 0 <= i < |ps| ==> qs[i] == if ps[i].phone == phone then ps[i].(name := name) else ps[i]
  {
    seq(|ps|, i requires 0 <= i < |ps| => if ps[i].phone == phone then ps[i].(name := name) else ps[i])
  }

  function SelfApproved(p: Party, phone: Phone, time: int): Party {
    if p.phone != phone then p
    else p.(approvedAt := if p.approvedAt.Some? then p.approvedAt else Some(time), approvedBy := Some(phone))
  }

  function AllSelfApproved(ps: seq<Party>, phone: Phone, time: int): (qs: seq<Party>)
    ensures |qs| == |ps| && forall i :: 0 <= i < |ps| ==> qs[i] == SelfApproved(ps[i], phone, time)
  {
    seq(|ps|, i requires 0 <= i < |ps| => SelfApproved(ps[i], phone, time))
  }

  function AllDated(ps: seq<Party>, phone: Phone, date: Option<Date>): (qs: seq<Party>)
    ensures |qs| == |ps|
    ensures forall i :: 0 <= i < |ps| ==> qs[i] == if ps[i].phone == phone then ps[i].(scheduleDate := date) else ps[i]
  {
    seq(|ps|, i requires 0 <= i < |ps| => if ps[i].phone == phone then ps[i].(scheduleDate := date) else ps[i])
  }

  function RolesOf(ps: seq<Party>, phone: Phone): set<Role> {
    set p | p in ps && p.phone == phone :: p.role
  }

  function Recorded(r: Request, phone: Phone, date: Date): map<Role, Consent> {
    r.consents + (map role | role in RolesOf(r.parties, phone) :: Consent(phone, date, FactsOf(r)))
  }

  // ------------------------------------------------------------- item updates

  function AsItem(i: ItemInput): Item {
    Item(i.kind, i.description, i.quantity, None, None, None, None, None, None)
  }

  /** Naming a receiver turns an open donation into a handoff, which never
      asks the generic condition question. */
  function WorkingByDefault(items: seq<Item>): (out: seq<Item>)
    ensures |out| == |items|
    ensures forall k :: 0 <= k < |items| ==>
              out[k] == if items[k].working.None? then items[k].(working := Some(true)) else items[k]
  {
    seq(|items|, k requires 0 <= k < |items| =>
      if items[k].working.None? then items[k].(working := Some(true)) else items[k])
  }

  /** New kinds, descriptions and quantities over the facts known by position. */
  function Relisted(known: seq<Item>, inputs: seq<ItemInput>): (out: seq<Item>)
    ensures |out| == |inputs|
    ensures forall k :: 0 <= k < |inputs| ==>
              out[k] == (if k < |known| then known[k] else AsItem(inputs[k])).(
                          kind := inputs[k].kind, description := inputs[k].description, quantity := inputs[k].quantity)
  {
    seq(|inputs|, k requires 0 <= k < |inputs| =>
      (if k < |known| then known[k] else AsItem(inputs[k])).(
        kind := inputs[k].kind, description := inputs[k].description, quantity := inputs[k].quantity))
  }

  /** One item after an item_facts command. */
  function WithFacts(i: Item, cmd: Command, rd: Reading): Item
    requires cmd.ItemFacts?
  {
    var i1 := if cmd.free.Some? then i.(free := cmd.free) else i;
    var i2 := if cmd.working.Some? then i1.(working := cmd.working) else i1;
    var i3 := if rd.brokenWords then i2.(working := Some(false)) else i2;
    var i4 :=
      if i3.kind == Wardrobe then
        i3.(smallWhole := if cmd.smallWhole.Some? then cmd.smallWhole else i3.smallWhole,
            needsDisassembly := if cmd.needsDisassembly.Some? then cmd.needsDisassembly else i3.needsDisassembly)
      else if Appliance(i3) then i3.(needsDisassembly := Some(false))
      else if cmd.needsDisassembly.Some? then i3.(needsDisassembly := cmd.needsDisassembly)
      else i3;
    var i5 := if i4.kind == Oven && cmd.ovenType.Some? then i4.(ovenType := cmd.ovenType) else i4;
    if cmd.evacuation.Some? then i5.(evacuation := cmd.evacuation) else i5
  }

  function AllWithFacts(items: seq<Item>, cmd: Command, rd: Reading): (out: seq<Item>)
    requires cmd.ItemFacts?
    ensures |out| == |items| && forall k :: 0 <= k < |items| ==> out[k] == WithFacts(items[k], cmd, rd)
  {
    seq(|items|, k requires 0 <= k < |items| => WithFacts(items[k], cmd, rd))
  }

  // ----------------------------------------------------------- the commands

  /** The last step of the commands that fall through: a one-sided request
      with a photo is available to receivers. */
  function Settle(r: Request): Verdict {
    Changed(if |r.parties| == 1 && r.photos != [] then r.(status := Available) else r, false)
  }

  predicate Supplies(cmd: Command)
    requires cmd.Details?
  {
    Given(cmd.name) || Given(cmd.settlement) || Given(cmd.address) || cmd.floor.Some?
  }

  /** A rejected request reopens when its party corrects the settlement. */
  function Reopened(r: Request, phone: Phone, cmd: Command, rd: Reading): Request
    requires cmd.Details?
  {
    if r.status == Status.Rejected && Given(cmd.settlement) && rd.correctionWords && HasPhone(r.parties, phone)
       && rd.lastEventOutside && rd.region.Allowed?
    then r.(status := Collecting) else r
  }

  predicate Fills(before: Option<string>, after: Option<string>) {
    Given(after) && Given(before) ==> before == after
  }

  /** The side a details command writes: the sender's own, or, in a direct
      handoff, empty fields of a receiver who has not approved yet. */
  function DetailsSide(r: Request, phone: Phone, cmd: Command): (k: Option<nat>)
    requires cmd.Details?
    ensures k.Some? ==> k.value < |r.parties|
  {
    var own := OwnParty(r.parties, phone, cmd.role);
    if own.Some? then own
    else
      var actor := FirstMine(r.parties, phone, None, false, 0);
      var receiver := FirstWithRole(r.parties, Receiver, 0);
      if && r.origin == Direct && cmd.role == Some(Receiver)
         && actor.Some? && r.parties[actor.value].role == Donor
         && receiver.Some?
         && var p := r.parties[receiver.value];
            && p.approvedAt.None?
            && Fills(p.name, cmd.name) && Fills(p.settlement, cmd.settlement) && Fills(p.address, cmd.address)
            && (cmd.floor.None? || p.floor.None? || p.floor == cmd.floor)
      then receiver else None
  }

  function FirstWithRole(ps: seq<Party>, role: Role, k: nat): (i: Option<nat>)
    requires k <= |ps|
    ensures i.Some? ==> k <= i.value < |ps| && ps[i.value].role == role
    ensures i.None? ==> forall j :: k <= j < |ps| ==> ps[j].role != role
    decreases |ps| - k
  {
    if k == |ps| then None else if ps[k].role == role then Some(k) else FirstWithRole(ps, role, k + 1)
  }

  /** Outside Beit She'an there are no floors. */
  function FloorRule(p: Party, floor: Option<int>): Party {
    if Given(p.settlement) && p.settlement != Some(BEIT_SHEAN) then p.(floor := Some(0))
    else if p.settlement == Some(BEIT_SHEAN) && floor.Some? then p.(floor := floor)
    else p
  }

  /** The supplied fields on side k; in a self-transfer the name goes to both. */
  function Written(
    ps: seq<Party>, both: bool, k: nat, phone: Phone, cmd: Command, town: Option<string>): (qs: seq<Party>)
    requires cmd.Details? && k < |ps|
    ensures |qs| == |ps|
  {
    var p1 := if town.Some? then ps[k].(settlement := town) else ps[k];
    var p2 := if Given(cmd.name) then p1.(name := cmd.name) else p1;
    var qs := if Given(cmd.name) && both then Named(ps[k := p2], phone, cmd.name) else ps[k := p2];
    var p3 := if Given(cmd.address) then qs[k].(address := Some(Trim(cmd.address.value))) else qs[k];
    qs[k := FloorRule(p3, cmd.floor)]
  }

  /** The region check, the fields, and a street the list does not know, which
      is asked about at once. */
  function WriteDetails(r: Request, k: nat, phone: Phone, cmd: Command, rd: Reading): Verdict
    requires cmd.Details? && k < |r.parties|
  {
    var moves := Given(cmd.settlement) && !rd.settlementIsStreet;
    if moves && rd.region.Outside? then Changed(r.(status := Status.Rejected), false)
    else if moves && rd.region.Review? then Changed(r.(status := Human), true)
    else
      var town := if moves then Some(rd.region.name) else None;
      var done := r.(parties := Written(r.parties, r.representsBoth, k, phone, cmd, town));
      if Given(cmd.address) && rd.streetUnknown then Changed(done, false) else Settle(done)
  }

  function ApplyDetails(r0: Request, phone: Phone, cmd: Command, rd: Reading): Verdict
    requires cmd.Details?
  {
    var r1 := Reopened(r0, phone, cmd, rd);
    if Protected(r1) then Refused
    else
      var r := if Supplies(cmd) then Invalidated(r1) else r1;
      match DetailsSide(r, phone, cmd)
      case None => Refused
      case Some(k) => WriteDetails(r, k, phone, cmd, rd)
  }

  /** A yes about an item that the message does not confirm. */
  predicate Unconfirmed(cmd: Command, rd: Reading)
    requires cmd.ItemFacts?
  {
    (cmd.free == Some(true) && !rd.freeConfirmed) || (cmd.working == Some(true) && !rd.workingConfirmed)
  }

  function ApplyItemFacts(r0: Request, phone: Phone, cmd: Command, rd: Reading): Verdict
    requires cmd.ItemFacts?
  {
    if Protected(r0) || OwnParty(r0.parties, phone, Some(Donor)).None? then Refused
    else
      var listed := if cmd.newItems.Some? then Relisted(r0.items, cmd.newItems.value) else r0.items;
      if listed != [] && Unconfirmed(cmd, rd) then Refused
      else
        JudgeItems(Invalidated(r0).(items := AllWithFacts(listed, cmd, rd)), r0.items)
  }

  /** The items decide: rejected (keeping the old list when the new one is too
      long to store), a human for another evacuation, or on with the request. */
  function JudgeItems(r: Request, oldItems: seq<Item>): Verdict {
    if ItemError(r.items, r.photos != []).Some? then
      Changed(r.(status := Status.Rejected, items := if TotalQuantity(r.items) > 2 then oldItems else r.items), false)
    else if exists i :: i in r.items && i.evacuation == Some(Different) then
      Changed(r.(status := Human), true)
    else Settle(r)
  }

  function Opposite(role: Role): Role {
    if role == Donor then Receiver else Donor
  }

  /** suppliedPhone: the canonical number, if the message itself holds it. */
  function SuppliedPhone(input: string, rd: Reading): Option<Phone> {
    if rd.phoneSupplied then Phones.CanonicalPhone(input) else None
  }

  function Linked(r: Request, p: Party): Request {
    r.(parties := r.parties + [p])
  }

  function ApplyCounterparty(r0: Request, phone: Phone, cmd: Command, rd: Reading, time: int): Verdict
    requires cmd.Counterparty?
  {
    var own := OwnParty(r0.parties, phone, None);
    if Protected(r0) || own.None? then Refused
    else
      var role := Opposite(r0.parties[own.value].role);
      if !Given(cmd.phone) then
        if role != Receiver || !Given(cmd.name) then Refused else Changed(r0, false)
      else
        match SuppliedPhone(cmd.phone.value, rd)
        case None => Refused
        case Some(target) =>
          match FirstWithRole(r0.parties, role, 0)
          case Some(k) => if r0.parties[k].phone == target then Unsaved else Refused
          case None =>
            Settle(AddOther(r0, role, target, phone, cmd, rd, time))
  }

  /** The new side, approved when it is the sender's own number. */
  function OtherSide(r: Request, role: Role, target: Phone, phone: Phone, cmd: Command, rd: Reading, time: int): Party
    requires cmd.Counterparty?
  {
    var approved := target == phone && exists x :: x in r.parties && x.phone == phone && x.approvedAt.Some?;
    NewParty(role, target, approved, time).(
      name := if rd.contactName.Some? then rd.contactName
              else if rd.pendingName.Some? then rd.pendingName else cmd.name)
  }

  function AddOther(r0: Request, role: Role, target: Phone, phone: Phone, cmd: Command, rd: Reading, time: int): Request
    requires cmd.Counterparty?
  {
    WithOther(r0, OtherSide(r0, role, target, phone, cmd, rd, time))
  }

  function WithOther(r0: Request, p: Party): Request {
    var r := Invalidated(Linked(r0, p)).(
      items := if p.role == Receiver then WorkingByDefault(r0.items) else r0.items, origin := Direct);
    if |r.parties| == 2 && r.parties[0].phone == r.parties[1].phone then r.(representsBoth := true) else r
  }

  function ApplySelfApproval(r: Request, phone: Phone, rd: Reading, time: int): Verdict {
    if Protected(r) || !rd.explicitApproval then Refused
    else Settle(r.(parties := AllSelfApproved(r.parties, phone, time)))
  }

  function ApplyDateApproval(r: Request, phone: Phone, date: Date, rd: Reading): Verdict {
    var own := OwnParty(r.parties, phone, None);
    if Protected(r) || r.proposed != Some(date) || !rd.explicitApproval || !rd.dateQuoted
       || own.None? || r.parties[own.value].approvedAt.None?
    then Refused
    else Settle(r.(parties := AllDated(r.parties, phone, r.proposed), consents := Recorded(r, phone, date)))
  }

  function ApplyCancel(r: Request, choice: CancelChoice, rd: Reading, now: Now): Verdict {
    match choice
    case Ask =>
      if !rd.cancelWords then Refused
      else
        var base := if r.runDate.Some? then r.runDate.value else NextTuesday(now);
        Changed(Invalidated(r).(earliest := Some(base + 7), runDate := None, status := CancelPending), false)
    case Final =>
      if !rd.finalWords then Refused
      else Changed(Invalidated(r).(runDate := None, status := Cancelled), false)
    case NextWeek =>
      if r.status != CancelPending || !rd.rescheduleWords then Refused
      else Changed(Invalidated(r).(status := AwaitingApproval), false)
  }

  function ApplyContact(r: Request, phone: Phone, contact: bool, rd: Reading): Verdict {
    if r.origin != Direct || !HasOther(r.parties, phone) then Refused
    else if r.verificationContacted || rd.contactedBefore then Changed(r, false)
    else if contact then Changed(r.(verificationContacted := true), false)
    else Changed(Invalidated(r), false)
  }

  function ApplyConfirmation(r: Request, accept: bool, rd: Reading): Verdict {
    if rd.pendingPhone.None? then Refused
    else if !accept then Changed(r, false)
    else if HasRole(r.parties, Receiver) then Refused
    else
      var p := NewParty(Receiver, rd.pendingPhone.value, false, 0).(name := rd.pendingName);
      Changed(Linked(r, p).(origin := Direct, items := WorkingByDefault(r.items)), false)
  }

  /** A command about a request the sender is on. */
  function Applied(r: Request, phone: Phone, cmd: Command, rd: Reading, now: Now, time: int): Verdict {
    if OwnParty(r.parties, phone, None).None? then Refused
    else match cmd
      case ClarifyDuplicate(_) => Changed(r, false)
      case Select(_) => Unsaved
      case CounterpartyCandidate(_, candidate, _) =>
        if HasRole(r.parties, Receiver) || SuppliedPhone(candidate, rd).None? then Refused else Changed(r, false)
      case ConfirmCounterparty(_, accept) => ApplyConfirmation(r, accept, rd)
      case ContactCounterparty(_, contact) => ApplyContact(r, phone, contact, rd)
      case Escalate(_, _) => Changed(if r.status != Coordinated then r.(status := Human) else r, true)
      case Cancel(_, choice) => ApplyCancel(r, choice, rd, now)
      case Next => Changed(r, false)
      case Details(_, _, _, _, _, _) => ApplyDetails(r, phone, cmd, rd)
      case ItemFacts(_, _, _, _, _, _, _, _) => ApplyItemFacts(r, phone, cmd, rd)
      case Counterparty(_, _, _) => ApplyCounterparty(r, phone, cmd, rd, time)
      case ApproveSelf(_) => ApplySelfApproval(r, phone, rd, time)
      case ApproveSchedule(_, date) => ApplyDateApproval(r, phone, date, rd)
      case _ => Unsaved
  }

  // -------------------------------------------------- commands that start one

  /** A donation or a handoff the other way: the new request, None where the
      source answers with an item error or refuses. */
  function Opened(phone: Phone, cmd: Command, rd: Reading, time: int): Verdict
    requires cmd.Donate? || cmd.ReceiveFromDonor?
  {
    var donor := cmd.Donate?;
    var direct := Given(cmd.otherPhone) || (donor && cmd.direct);
    if donor && !rd.donationWords && !direct then Refused
    else
      var items := OpeningItems(cmd, direct);
      if ItemError(items, false).Some? then Unsaved
      else
        var own := NewParty(if donor then Donor else Receiver, phone, donor, time);
        var base := Request(0, Collecting, if donor && !direct then Donation else Direct,
                            false, false, items, [own], [], None, None, None, map[]);
        if !Given(cmd.otherPhone) then Changed(base, false)
        else
          match SuppliedPhone(cmd.otherPhone.value, rd)
          case None => Refused
          case Some(target) =>
            var p := NewParty(Opposite(own.role), target, target == phone && donor, time);
            var other := if donor && Given(cmd.otherName) then p.(name := cmd.otherName) else p;
            Changed(base.(parties := [own, other], representsBoth := target == phone), false)
  }

  function OpeningItems(cmd: Command, direct: bool): (out: seq<Item>)
    requires cmd.Donate? || cmd.ReceiveFromDonor?
    ensures |out| == |cmd.items|
  {
    seq(|cmd.items|, k requires 0 <= k < |cmd.items| =>
      if cmd.ReceiveFromDonor? then AsItem(cmd.items[k])
      else AsItem(cmd.items[k]).(
        free := Some(cmd.free != Some(false)),
        working := if direct && cmd.working.None? then Some(true) else cmd.working))
  }

  /** A receiver claims an offered item. */
  function Claimed(r: Request, phone: Phone, rd: Reading): Verdict {
    if Protected(r) || !rd.presented || HasRole(r.parties, Receiver) then Refused
    else Changed(Linked(r, NewParty(Receiver, phone, false, 0)).(status := AwaitingApproval), false)
  }
}
