/** The commands about the two sides: who may give them, what they record on
    which side, and that they settle the question they answer. */
module PartyAnswers {
  import opened Types
  import opened Policies
  import opened Commands
  import opened CommandAnswers
  import Lifecycle
  import Questions
  import Phones

  /** Nothing about a side has changed but, where it is dropped, its date. */
  predicate SameSides(ps: seq<Party>, qs: seq<Party>) {
    |qs| == |ps| && forall i :: 0 <= i < |ps| ==> qs[i] == ps[i].(scheduleDate := qs[i].scheduleDate)
  }

  predicate OnlySide(ps: seq<Party>, phone: Phone, k: nat) {
    && k < |ps| && ps[k].phone == phone
    && forall i :: 0 <= i < |ps| && ps[i].phone == phone ==> i == k
  }

  /** A one-sided request with a photo becomes available to receivers; any other
      keeps its status. */
  predicate SettledFrom(status: Status, q: Request) {
    q.status == if |q.parties| == 1 && q.photos != [] then Available else status
  }

  // ------------------------------------------------------------- own approval

  /** The sender approves on every side with its phone; the first time counts. */
  lemma ApprovesSelfExactly(r: Request, phone: Phone, ref: Option<nat>, rd: Reading, now: Now, time: int)
    ensures var v := After(r, phone, ApproveSelf(ref), rd, now, time);
            && (v.Changed? <==> HasPhone(r.parties, phone) && !Protected(r) && rd.explicitApproval)
            && (v.Changed? ==>
                  && |v.request.parties| == |r.parties|
                  && v.request.items == r.items && v.request.proposed == r.proposed
                  && !v.handoff && SettledFrom(r.status, v.request)
                  && forall i :: 0 <= i < |r.parties| ==>
                       var p, q := r.parties[i], v.request.parties[i];
                       if p.phone != phone then q == p
                       else q == p.(approvedAt := q.approvedAt, approvedBy := Some(phone))
                            && q.approvedAt == Some(if p.approvedAt.Some? then p.approvedAt.value else time))
  {
    OnRequest(r, phone);
  }

  lemma ApprovalIsSettled(r: Request, phone: Phone, ref: Option<nat>, rd: Reading, now: Now, time: int)
    requires After(r, phone, ApproveSelf(ref), rd, now, time).Changed?
    ensures !Asks(After(r, phone, ApproveSelf(ref), rd, now, time).request, phone, ApproveYourShare)
  {
    ApprovesSelfExactly(r, phone, ref, rd, now, time);
    var k := Questions.AskedAboutSide(After(r, phone, ApproveSelf(ref), rd, now, time).request, phone);
  }

  // -------------------------------------------------------------- date approval

  /** Both sides of the sender's phone take the live proposal as their date, and
      nobody else's approval moves. */
  lemma ApprovesDateExactly(r: Request, phone: Phone, ref: Option<nat>, d: Date, rd: Reading, now: Now, time: int)
    ensures var v := After(r, phone, ApproveSchedule(ref, d), rd, now, time);
            var own := OwnParty(r.parties, phone, None);
            && (v.Changed? <==>
                  && own.Some? && r.parties[own.value].approvedAt.Some?
                  && !Protected(r) && r.proposed == Some(d) && rd.explicitApproval && rd.dateQuoted)
            && (v.Changed? ==>
                  && |v.request.parties| == |r.parties| && v.request.proposed == Some(d) && v.request.items == r.items
                  && v.request.runDate == r.runDate && v.request.origin == r.origin
                  && !v.handoff && SettledFrom(r.status, v.request)
                  && forall i :: 0 <= i < |r.parties| ==>
                       var p := r.parties[i];
                       v.request.parties[i] == p.(scheduleDate := if p.phone == phone then Some(d) else p.scheduleDate))
  {}

  lemma DateIsSettled(r: Request, phone: Phone, ref: Option<nat>, d: Date, rd: Reading, now: Now, time: int, x: Date)
    requires After(r, phone, ApproveSchedule(ref, d), rd, now, time).Changed?
    ensures !Asks(After(r, phone, ApproveSchedule(ref, d), rd, now, time).request, phone, ApproveDate(x))
  {
    ApprovesDateExactly(r, phone, ref, d, rd, now, time);
    var k := Questions.AskedAboutSide(After(r, phone, ApproveSchedule(ref, d), rd, now, time).request, phone);
  }

  // ------------------------------------------------------------ the other side

  predicate MayContact(r: Request, phone: Phone) {
    r.origin == Direct && HasPhone(r.parties, phone) && HasOther(r.parties, phone)
  }

  /** Permission to contact is recorded once; a refusal drops the proposal. */
  lemma ContactsExactly(
    r: Request, phone: Phone, ref: Option<nat>, contact: bool, rd: Reading, now: Now, time: int)
    ensures var v := After(r, phone, ContactCounterparty(ref, contact), rd, now, time);
            && (v.Changed? <==> MayContact(r, phone))
            && (v.Changed? ==>
                  var open := !r.verificationContacted && !rd.contactedBefore;
                  && v.request.verificationContacted == (r.verificationContacted || (contact && open))
                  && (if !contact && open
                      then v.request.proposed.None? && v.request.parties == ClearedDates(r.parties)
                      else v.request == r.(verificationContacted := v.request.verificationContacted)))
  {
    OnRequest(r, phone);
  }

  /** The question is settled by a yes, unless the other side is the sender's
      own phone, or was asked before: then it stays. */
  lemma ContactIsSettledExactly(r: Request, phone: Phone, ref: Option<nat>, rd: Reading, now: Now, time: int)
    requires Asks(r, phone, MayWeContact)
    ensures var v := After(r, phone, ContactCounterparty(ref, true), rd, now, time);
            v.Changed? && !Asks(v.request, phone, MayWeContact) <==> HasOther(r.parties, phone) && !rd.contactedBefore
  {
    OnRequest(r, phone);
    ContactsExactly(r, phone, ref, true, rd, now, time);
  }

  /** The number of the other side, when the message holds it. */
  predicate Numbers(cmd: Command, rd: Reading, phone: Phone)
    requires cmd.Counterparty?
  {
    Given(cmd.phone) && rd.phoneSupplied && Phones.CanonicalPhone(cmd.phone.value) == Some(phone)
  }

  /** The sender's side of a one-sided request. */
  predicate Alone(r: Request, phone: Phone) {
    |r.parties| == 1 && r.parties[0].phone == phone
  }

  lemma LinkApplies(r: Request, phone: Phone, cmd: Command, rd: Reading, now: Now, time: int, other: Phone)
    requires cmd.Counterparty? && Numbers(cmd, rd, other) && Alone(r, phone) && !Protected(r)
    ensures After(r, phone, cmd, rd, now, time)
            == Settle(WithOther(r, OtherSide(r, Opposite(r.parties[0].role), other, phone, cmd, rd, time)))
  {
    OnRequest(r, phone);
  }

  /** The side that joins under a number. */
  predicate Joins(p: Party, r: Request, phone: Phone, other: Phone, cmd: Command, rd: Reading)
    requires cmd.Counterparty? && |r.parties| == 1
  {
    && p.phone == other && p.role != r.parties[0].role && p.scheduleDate.None?
    && (p.approvedAt.Some? <==> other == phone && r.parties[0].approvedAt.Some?)
    && p.name == (if rd.contactName.Some? then rd.contactName
                  else if rd.pendingName.Some? then rd.pendingName else cmd.name)
    && p.settlement == None && p.address == None && p.floor == None
  }

  lemma OtherSideJoins(r: Request, phone: Phone, cmd: Command, rd: Reading, time: int, other: Phone)
    requires cmd.Counterparty? && Alone(r, phone)
    ensures Joins(OtherSide(r, Opposite(r.parties[0].role), other, phone, cmd, rd, time), r, phone, other, cmd, rd)
  {
    assert r.parties[0] in r.parties;
  }

  lemma JoinedRequest(r: Request, p: Party)
    requires |r.parties| == 1
    ensures var v := Settle(WithOther(r, p));
            && !v.handoff && v.request.status == r.status
            && v.request.origin == Direct && v.request.proposed.None?
            && v.request.parties == [r.parties[0].(scheduleDate := None), p.(scheduleDate := None)]
            && (v.request.representsBoth <==> r.representsBoth || p.phone == r.parties[0].phone)
  {}

  /** A number links the missing side under that phone; what is already linked is
      never replaced. */
  lemma LinksExactly(r: Request, phone: Phone, cmd: Command, rd: Reading, now: Now, time: int, other: Phone)
    requires cmd.Counterparty? && Numbers(cmd, rd, other) && Alone(r, phone) && !Protected(r)
    ensures var v := After(r, phone, cmd, rd, now, time);
            && v.Changed? && |v.request.parties| == 2 && v.request.origin == Direct && v.request.proposed.None?
            && !v.handoff && v.request.status == r.status
            && v.request.parties[0] == r.parties[0].(scheduleDate := None)
            && Joins(v.request.parties[1], r, phone, other, cmd, rd)
            && (v.request.representsBoth <==> r.representsBoth || other == phone)
  {
    LinkApplies(r, phone, cmd, rd, now, time, other);
    OtherSideJoins(r, phone, cmd, rd, time, other);
    JoinedRequest(r, OtherSide(r, Opposite(r.parties[0].role), other, phone, cmd, rd, time));
  }

  lemma BothLinked(q: Request, phone: Phone)
    requires |q.parties| == 2 && q.parties[0].role != q.parties[1].role
    ensures !Asks(q, phone, OtherSideNumber) && !Asks(q, phone, SendContactOf)
  {
    var k := Questions.AskedAboutSide(q, phone);
    assert q.parties[0] in q.parties && q.parties[1] in q.parties;
  }

  lemma LinkIsSettled(r: Request, phone: Phone, cmd: Command, rd: Reading, now: Now, time: int, other: Phone)
    requires cmd.Counterparty? && Numbers(cmd, rd, other) && Alone(r, phone) && !Protected(r)
    ensures var q := After(r, phone, cmd, rd, now, time).request;
            !Asks(q, phone, OtherSideNumber) && !Asks(q, phone, SendContactOf)
  {
    LinksExactly(r, phone, cmd, rd, now, time, other);
    BothLinked(After(r, phone, cmd, rd, now, time).request, phone);
  }

  /** With both sides linked, a number changes nothing: that of the other side is
      known already, and any other is refused. */
  lemma LinkedIsNeverReplaced(r: Request, phone: Phone, cmd: Command, rd: Reading, now: Now, time: int, k: nat)
    requires cmd.Counterparty? && Given(cmd.phone) && Ordered(r.parties) && |r.parties| == 2
    requires OwnParty(r.parties, phone, None) == Some(k)
    ensures var v, other := After(r, phone, cmd, rd, now, time), r.parties[1 - k].phone;
            if !Protected(r) && Numbers(cmd, rd, other) then v.Unsaved? else v.Refused?
  {
    TakenPlace(r, k);
  }

  lemma TakenPlace(r: Request, k: nat)
    requires Ordered(r.parties) && |r.parties| == 2 && k < 2
    ensures FirstWithRole(r.parties, Opposite(r.parties[k].role), 0) == Some(1 - k)
  {}

  /** Without a number only a donor may name the receiver, which changes nothing
      yet; and a number the message does not hold is refused. */
  lemma WithoutNumber(r: Request, phone: Phone, cmd: Command, rd: Reading, now: Now, time: int)
    requires cmd.Counterparty? && forall other :: !Numbers(cmd, rd, other)
    ensures var v, own := After(r, phone, cmd, rd, now, time), OwnParty(r.parties, phone, None);
            if && own.Some? && !Protected(r) && r.parties[own.value].role == Donor
               && !Given(cmd.phone) && Given(cmd.name)
            then v == Changed(r, false) else v.Refused?
  {
    if Given(cmd.phone) && SuppliedPhone(cmd.phone.value, rd).Some? {
      assert Numbers(cmd, rd, SuppliedPhone(cmd.phone.value, rd).value);
    }
  }

  /** A receiver of whom only a contact card is known. */
  function Pending(phone: Phone, name: Option<string>): Party {
    Party(Receiver, phone, name, None, None, None, false, None, None, None)
  }

  /** The receiver whose contact card is pending joins when the donor says yes. */
  lemma ConfirmsExactly(r: Request, phone: Phone, ref: Option<nat>, accept: bool, rd: Reading, now: Now, time: int)
    ensures var v := After(r, phone, ConfirmCounterparty(ref, accept), rd, now, time);
            && (v.Changed? <==>
                  && HasPhone(r.parties, phone) && rd.pendingPhone.Some?
                  && (accept ==> !exists i :: 0 <= i < |r.parties| && r.parties[i].role == Receiver))
            && (v.Changed? && !accept ==> v.request == r)
            && (v.Changed? && accept ==>
                  && v.request == r.(parties := v.request.parties, origin := Direct, items := v.request.items)
                  && |v.request.parties| == |r.parties| + 1 && v.request.parties[..|r.parties|] == r.parties
                  && v.request.parties[|r.parties|] == Pending(rd.pendingPhone.value, rd.pendingName)
                  && |v.request.items| == |r.items|
                  && forall k :: 0 <= k < |r.items| ==>
                       v.request.items[k] ==
                         if r.items[k].working.None? then r.items[k].(working := Some(true)) else r.items[k])
            && (v.Changed? ==> !v.handoff)
  {
    OnRequest(r, phone);
  }

  /** Commands that only ask or point leave the request as it is; a question for
      a human hands it over, unless it is coordinated. */
  lemma PointsExactly(r: Request, phone: Phone, cmd: Command, rd: Reading, now: Now, time: int)
    requires HasPhone(r.parties, phone)
    ensures var v := After(r, phone, cmd, rd, now, time);
            && (cmd.ClarifyDuplicate? || cmd.Next? ==> v == Changed(r, false))
            && (cmd.Select? ==> v.Unsaved?)
            && (cmd.Escalate? ==>
                  v == Changed(if r.status == Coordinated then r else r.(status := Human), true))
            && (cmd.CounterpartyCandidate? ==>
                  var taken := exists i :: 0 <= i < |r.parties| && r.parties[i].role == Receiver;
                  var known := rd.phoneSupplied && Phones.CanonicalPhone(cmd.candidatePhone).Some?;
                  v == if !taken && known then Changed(r, false) else Refused)
  {
    OnRequest(r, phone);
  }

  /** Nobody but a side of the request gets any command on it to run. */
  lemma StrangersAreRefused(r: Request, phone: Phone, cmd: Command, rd: Reading, now: Now, time: int)
    requires !HasPhone(r.parties, phone)
    ensures After(r, phone, cmd, rd, now, time).Refused?
  {
    OnRequest(r, phone);
  }

  /** A donor who names the receiver is not asked whether the items work. */
  lemma LinkedItemsWork(r: Request, phone: Phone, cmd: Command, rd: Reading, now: Now, time: int, other: Phone)
    requires cmd.Counterparty? && Numbers(cmd, rd, other) && Alone(r, phone) && !Protected(r)
    ensures var q := After(r, phone, cmd, rd, now, time).request;
            && |q.items| == |r.items|
            && forall k :: 0 <= k < |r.items| ==>
                 q.items[k] == if r.parties[0].role == Donor && r.items[k].working.None?
                               then r.items[k].(working := Some(true)) else r.items[k]
  {
    LinkApplies(r, phone, cmd, rd, now, time, other);
  }

  lemma WorkingIsNotAsked(r: Request, phone: Phone, cmd: Command, rd: Reading, now: Now, time: int, other: Phone)
    requires cmd.Counterparty? && Numbers(cmd, rd, other) && Alone(r, phone) && !Protected(r)
    requires r.parties[0].role == Donor
    ensures !Asks(After(r, phone, cmd, rd, now, time).request, phone, IsItWorking)
  {
    LinksExactly(r, phone, cmd, rd, now, time, other);
    LinkedItemsWork(r, phone, cmd, rd, now, time, other);
    AllWorkKnown(After(r, phone, cmd, rd, now, time).request, phone);
  }

  lemma AllWorkKnown(q: Request, phone: Phone)
    requires forall k :: 0 <= k < |q.items| ==> q.items[k].working.Some?
    ensures !Asks(q, phone, IsItWorking)
  {
    Questions.AskedAboutItems(q, phone);
    forall i | i in q.items ensures i.working.Some? { var k :| 0 <= k < |q.items| && q.items[k] == i; }
  }

  // ------------------------------------------------------------- names and places

  /** A correction of the town reopens a request that was rejected for it. */
  predicate Reopens(r: Request, cmd: Command, rd: Reading)
    requires cmd.Details?
  {
    && r.status == Status.Rejected && Given(cmd.settlement) && rd.correctionWords && rd.lastEventOutside
    && rd.region.Allowed?
  }

  /** What is stated about a side is not known yet, or already known like this. */
  predicate FillsIn(p: Party, cmd: Command)
    requires cmd.Details?
  {
    && p.approvedAt == None
    && (Given(cmd.name) && Given(p.name) ==> cmd.name == p.name)
    && (Given(cmd.settlement) && Given(p.settlement) ==> cmd.settlement == p.settlement)
    && (Given(cmd.address) && Given(p.address) ==> cmd.address == p.address)
    && (cmd.floor.Some? && p.floor.Some? ==> cmd.floor == p.floor)
  }

  predicate IsMine(p: Party, phone: Phone, role: Option<Role>) {
    p.phone == phone && (role == None || role == Some(p.role))
  }

  /** The sender may write its own side of the stated role. A donor in a handoff
      who is not the receiver may fill in the receiver until the receiver has
      approved, without contradicting it. */
  predicate MayWrite(r: Request, phone: Phone, cmd: Command, k: nat)
    requires cmd.Details? && k < |r.parties|
  {
    || IsMine(r.parties[k], phone, cmd.role)
    || (&& r.origin == Direct && cmd.role == Some(Receiver) && r.parties[k].role == Receiver
        && FillsIn(r.parties[k], cmd)
        && HasPhone(r.parties, phone) && !exists i :: 0 <= i < |r.parties| && IsMine(r.parties[i], phone, cmd.role))
  }

  lemma OwnSides(ps: seq<Party>, phone: Phone, role: Option<Role>)
    ensures OwnParty(ps, phone, role).Some? <==> exists i :: 0 <= i < |ps| && IsMine(ps[i], phone, role)
  {
    forall i | 0 <= i < |ps| ensures Mine(ps[i], phone, role) <==> IsMine(ps[i], phone, role) {}
  }

  lemma WritesSide(r: Request, phone: Phone, cmd: Command)
    requires cmd.Details? && Ordered(r.parties) && HasPhone(r.parties, phone)
    ensures DetailsSide(r, phone, cmd).Some? <==> exists k :: 0 <= k < |r.parties| && MayWrite(r, phone, cmd, k)
    ensures DetailsSide(r, phone, cmd).Some? ==> MayWrite(r, phone, cmd, DetailsSide(r, phone, cmd).value)
  {
    OwnSides(r.parties, phone, cmd.role);
    OnRequest(r, phone);
    var own := OwnParty(r.parties, phone, cmd.role);
    if own.None? { FillsReceiver(r, phone, cmd); } else { assert MayWrite(r, phone, cmd, own.value); }
  }

  lemma FillsReceiver(r: Request, phone: Phone, cmd: Command)
    requires cmd.Details? && Ordered(r.parties) && HasPhone(r.parties, phone)
    requires OwnParty(r.parties, phone, cmd.role).None?
    ensures DetailsSide(r, phone, cmd).Some? <==> exists k :: 0 <= k < |r.parties| && MayWrite(r, phone, cmd, k)
    ensures DetailsSide(r, phone, cmd).Some? ==> MayWrite(r, phone, cmd, DetailsSide(r, phone, cmd).value)
  {
    OwnSides(r.parties, phone, cmd.role);
    var i :| 0 <= i < |r.parties| && r.parties[i].phone == phone;
    assert Mine(r.parties[i], phone, None);
    var side := FirstWithRole(r.parties, Receiver, 0);
    if side.Some? {
      assert MayWrite(r, phone, cmd, side.value) <==> DetailsSide(r, phone, cmd) == side;
    }
  }

  /** The town of the message, when it names one in the area. */
  predicate NamesTown(cmd: Command, rd: Reading)
    requires cmd.Details?
  {
    Given(cmd.settlement) && !rd.settlementIsStreet && rd.region.Allowed?
  }

  /** Fields that are stated are taken over, the address without white space
      around it, and all others stay. Only in Beit She'an there are floors. */
  predicate SideTold(p: Party, cmd: Command, rd: Reading, q: Party)
    requires cmd.Details?
  {
    && q.role == p.role && q.phone == p.phone && q.floorNoteShown == p.floorNoteShown
    && q.approvedAt == p.approvedAt && q.approvedBy == p.approvedBy
    && q.name == (if Given(cmd.name) then cmd.name else p.name)
    && q.settlement == (if NamesTown(cmd, rd) then Some(rd.region.name) else p.settlement)
    && q.address == (if Given(cmd.address) then Some(Trim(cmd.address.value)) else p.address)
    && q.floor == (if !Given(q.settlement) then p.floor
                   else if q.settlement != Some(BEIT_SHEAN) then Some(0)
                   else if cmd.floor.Some? then cmd.floor else p.floor)
  }

  /** Another side gets the name only when it is the same person. */
  predicate OtherTold(r: Request, p: Party, phone: Phone, cmd: Command, q: Party)
    requires cmd.Details?
  {
    var named := Given(cmd.name) && r.representsBoth && p.phone == phone;
    q == p.(name := if named then cmd.name else p.name, scheduleDate := q.scheduleDate)
  }

  predicate SidesTold(r: Request, k: nat, phone: Phone, cmd: Command, rd: Reading, qs: seq<Party>)
    requires cmd.Details? && k < |r.parties|
  {
    && |qs| == |r.parties| && SideTold(r.parties[k], cmd, rd, qs[k])
    && forall i :: 0 <= i < |qs| && i != k ==> OtherTold(r, r.parties[i], phone, cmd, qs[i])
  }

  lemma WrittenSide(r: Request, s: Request, k: nat, phone: Phone, cmd: Command, rd: Reading)
    requires cmd.Details? && k < |r.parties| && SameSides(r.parties, s.parties)
    ensures var town := if NamesTown(cmd, rd) then Some(rd.region.name) else None;
            SideTold(r.parties[k], cmd, rd, Written(s.parties, s.representsBoth, k, phone, cmd, town)[k])
  {}

  lemma WrittenOther(r: Request, s: Request, k: nat, phone: Phone, cmd: Command, town: Option<string>, i: nat)
    requires cmd.Details? && k < |r.parties| && SameSides(r.parties, s.parties) && s.representsBoth == r.representsBoth
    requires i < |r.parties| && i != k
    ensures OtherTold(r, r.parties[i], phone, cmd, Written(s.parties, s.representsBoth, k, phone, cmd, town)[i])
  {}

  lemma WrittenIsTold(r: Request, s: Request, k: nat, phone: Phone, cmd: Command, rd: Reading)
    requires cmd.Details? && k < |r.parties| && SameSides(r.parties, s.parties) && s.representsBoth == r.representsBoth
    ensures var town := if NamesTown(cmd, rd) then Some(rd.region.name) else None;
            SidesTold(r, k, phone, cmd, rd, Written(s.parties, s.representsBoth, k, phone, cmd, town))
  {
    var town := if NamesTown(cmd, rd) then Some(rd.region.name) else None;
    WrittenSide(r, s, k, phone, cmd, rd);
    forall i | 0 <= i < |r.parties| && i != k
      ensures OtherTold(r, r.parties[i], phone, cmd, Written(s.parties, s.representsBoth, k, phone, cmd, town)[i])
    {
      WrittenOther(r, s, k, phone, cmd, town, i);
    }
  }

  /** A town outside the area, or one a human has to look at. */
  predicate NamesOther(cmd: Command, rd: Reading)
    requires cmd.Details?
  {
    Given(cmd.settlement) && !rd.settlementIsStreet && !rd.region.Allowed?
  }

  lemma WritesTold(r: Request, s: Request, k: nat, phone: Phone, cmd: Command, rd: Reading)
    requires cmd.Details? && k < |r.parties| && SameSides(r.parties, s.parties) && s.representsBoth == r.representsBoth
    ensures var v := WriteDetails(s, k, phone, cmd, rd);
            && v.Changed?
            && (if NamesOther(cmd, rd) then v.request.parties == s.parties
                else SidesTold(r, k, phone, cmd, rd, v.request.parties))
  {
    WrittenIsTold(r, s, k, phone, cmd, rd);
  }

  lemma WritesStatus(s: Request, k: nat, phone: Phone, cmd: Command, rd: Reading)
    requires cmd.Details? && k < |s.parties| && s.status != Status.Rejected
    ensures var v := WriteDetails(s, k, phone, cmd, rd);
            && v.Changed? && v.request.items == s.items && v.request.proposed == s.proposed
            && (v.request.status == Status.Rejected <==> NamesOther(cmd, rd) && rd.region.Outside?)
            && (v.handoff <==> NamesOther(cmd, rd) && rd.region.Review?)
            && (v.handoff ==> v.request.status == Human)
            && (!NamesOther(cmd, rd) ==>
                  if Given(cmd.address) && rd.streetUnknown then v.request.status == s.status
                  else SettledFrom(s.status, v.request))
  {}

  predicate States(cmd: Command)
    requires cmd.Details?
  {
    Given(cmd.name) || Given(cmd.settlement) || Given(cmd.address) || cmd.floor.Some?
  }

  /** The request a details command writes to: reopened, and without its
      proposal when something is stated. */
  function WritesTo(r: Request, phone: Phone, cmd: Command, rd: Reading): Request
    requires cmd.Details?
  {
    Lifecycle.BeforeDetails(Reopened(r, phone, cmd, rd), cmd)
  }

  lemma OpensForDetails(r: Request, phone: Phone, cmd: Command, rd: Reading)
    requires cmd.Details? && HasPhone(r.parties, phone)
    ensures var s := WritesTo(r, phone, cmd, rd);
            && SameSides(r.parties, s.parties) && s.representsBoth == r.representsBoth && s.origin == r.origin
            && s.items == r.items && (States(cmd) ==> s.proposed.None?)
  {}

  lemma ReopensForDetails(r: Request, phone: Phone, cmd: Command, rd: Reading)
    requires cmd.Details? && HasPhone(r.parties, phone)
    ensures WritesTo(r, phone, cmd, rd).status == if Reopens(r, cmd, rd) then Collecting else r.status
  {}

  lemma WritesOrRefuses(r: Request, phone: Phone, cmd: Command, rd: Reading)
    requires cmd.Details? && HasPhone(r.parties, phone)
    ensures var s := WritesTo(r, phone, cmd, rd);
            ApplyDetails(r, phone, cmd, rd) ==
              if (Protected(r) && !Reopens(r, cmd, rd)) || DetailsSide(s, phone, cmd).None? then Refused
              else WriteDetails(s, DetailsSide(s, phone, cmd).value, phone, cmd, rd)
  {}

  lemma AppliesDetails(r: Request, phone: Phone, cmd: Command, rd: Reading, now: Now, time: int)
    requires cmd.Details?
    ensures After(r, phone, cmd, rd, now, time) ==
              if HasPhone(r.parties, phone) then ApplyDetails(r, phone, cmd, rd) else Refused
  {
    OnRequest(r, phone);
  }

  predicate DetailsTold(r: Request, k: nat, phone: Phone, cmd: Command, rd: Reading, v: Verdict)
    requires cmd.Details?
  {
    && k < |r.parties| && MayWrite(r, phone, cmd, k) && v.Changed? && v.request.items == r.items
    && (if NamesOther(cmd, rd) then SameSides(r.parties, v.request.parties)
        else SidesTold(r, k, phone, cmd, rd, v.request.parties))
    && (v.request.status == Status.Rejected <==> NamesOther(cmd, rd) && rd.region.Outside?)
    && (v.handoff <==> NamesOther(cmd, rd) && rd.region.Review?)
    && (v.handoff ==> v.request.status == Human)
    && (States(cmd) ==> v.request.proposed.None?)
    && (!NamesOther(cmd, rd) ==>
          var status := if Reopens(r, cmd, rd) then Collecting else r.status;
          if Given(cmd.address) && rd.streetUnknown then v.request.status == status
          else SettledFrom(status, v.request))
  }

  predicate MayState(r: Request, phone: Phone, cmd: Command, rd: Reading)
    requires cmd.Details?
  {
    && HasPhone(r.parties, phone) && (Protected(r) ==> Reopens(r, cmd, rd))
    && exists i :: 0 <= i < |r.parties| && MayWrite(r, phone, cmd, i)
  }

  lemma DetailsApplied(r: Request, phone: Phone, cmd: Command, rd: Reading) returns (k: nat)
    requires cmd.Details? && Ordered(r.parties) && HasPhone(r.parties, phone) && (Protected(r) ==> Reopens(r, cmd, rd))
    ensures var v := ApplyDetails(r, phone, cmd, rd);
            if MayState(r, phone, cmd, rd) then DetailsTold(r, k, phone, cmd, rd, v) else v.Refused?
  {
    var s := WritesTo(r, phone, cmd, rd);
    OpensForDetails(r, phone, cmd, rd);
    ReopensForDetails(r, phone, cmd, rd);
    WritesOrRefuses(r, phone, cmd, rd);
    SameWriters(r, s, phone, cmd);
    WritesSide(s, phone, cmd);
    var side := DetailsSide(s, phone, cmd);
    k := if side.Some? then side.value else 0;
    if side.Some? {
      WritesTold(r, s, k, phone, cmd, rd);
      WritesStatus(s, k, phone, cmd, rd);
    }
  }

  /** What a details command leaves, on which side, and when it is refused. */
  lemma DetailsExactly(r: Request, phone: Phone, cmd: Command, rd: Reading, now: Now, time: int) returns (k: nat)
    requires cmd.Details? && Ordered(r.parties)
    ensures var v := After(r, phone, cmd, rd, now, time);
            if MayState(r, phone, cmd, rd) then DetailsTold(r, k, phone, cmd, rd, v) else v.Refused?
  {
    k := 0;
    AppliesDetails(r, phone, cmd, rd, now, time);
    if HasPhone(r.parties, phone) {
      if Protected(r) && !Reopens(r, cmd, rd) {
        WritesOrRefuses(r, phone, cmd, rd);
      } else {
        k := DetailsApplied(r, phone, cmd, rd);
      }
    }
  }

  lemma PlaceIsKnown(q: Request, phone: Phone, k: nat, note: bool)
    requires OnlySide(q.parties, phone, k)
    ensures Given(q.parties[k].settlement) ==> !Asks(q, phone, WhichSettlement)
    ensures Given(q.parties[k].name) && Given(q.parties[k].address) ==> !Asks(q, phone, NameAndAddress(note))
  {
    var i := Questions.AskedAboutSide(q, phone);
  }

  lemma StaysOnlySide(r: Request, phone: Phone, cmd: Command, rd: Reading, k: nat, j: nat, qs: seq<Party>)
    requires cmd.Details? && OnlySide(r.parties, phone, k) && j < |r.parties| && SidesTold(r, j, phone, cmd, rd, qs)
    ensures OnlySide(qs, phone, k)
  {
    forall i | 0 <= i < |qs| ensures qs[i].phone == r.parties[i].phone {
      if i != j { assert OtherTold(r, r.parties[i], phone, cmd, qs[i]); }
    }
  }

  /** The name and the place of a sender who is on one side only are settled by
      stating them. */
  lemma PlaceIsSettled(r: Request, phone: Phone, cmd: Command, rd: Reading, now: Now, time: int, k: nat, note: bool)
    requires cmd.Details? && Ordered(r.parties) && OnlySide(r.parties, phone, k)
    requires cmd.role == None || cmd.role == Some(r.parties[k].role)
    requires After(r, phone, cmd, rd, now, time).Changed? && !NamesOther(cmd, rd)
    ensures var q := After(r, phone, cmd, rd, now, time).request;
            && (NamesTown(cmd, rd) && rd.region.name != "" ==> !Asks(q, phone, WhichSettlement))
            && (Given(cmd.name) && Given(cmd.address) && Trim(cmd.address.value) != "" ==>
                  !Asks(q, phone, NameAndAddress(note)))
  {
    var j := DetailsExactly(r, phone, cmd, rd, now, time);
    assert IsMine(r.parties[k], phone, cmd.role);
    assert j == k;
    var q := After(r, phone, cmd, rd, now, time).request;
    StaysOnlySide(r, phone, cmd, rd, k, j, q.parties);
    PlaceIsKnown(q, phone, k, note);
  }

  lemma SameWriters(r: Request, s: Request, phone: Phone, cmd: Command)
    requires cmd.Details? && SameSides(r.parties, s.parties) && s.origin == r.origin
    ensures HasPhone(r.parties, phone) <==> HasPhone(s.parties, phone)
    ensures forall k :: 0 <= k < |r.parties| ==> (MayWrite(r, phone, cmd, k) <==> MayWrite(s, phone, cmd, k))
    ensures Ordered(r.parties) ==> Ordered(s.parties)
  {
    forall i | 0 <= i < |r.parties|
      ensures IsMine(r.parties[i], phone, cmd.role) <==> IsMine(s.parties[i], phone, cmd.role)
      ensures FillsIn(r.parties[i], cmd) <==> FillsIn(s.parties[i], cmd)
    {}
  }
}
