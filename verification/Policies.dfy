/** The pure rules of src/domain/policies.ts: which question comes next, when a
    request may be offered a date, and which Tuesday that is. */
module Policies {
  import opened Types

  /** The one service town with floors, by an abbreviation. */
  const BEIT_SHEAN := "BS"
  const MAX_CAPACITY := 100
  const DEFAULT_CAPACITY := 10

  // ---------------------------------------------------------------- statuses

  predicate IsClosed(r: Request) {
    r.status in {Closed, Cancelled, Status.Rejected}
  }

  /** The statuses whose requests a customer command may not change. */
  predicate Protected(r: Request) {
    r.status == Coordinated || IsClosed(r) || r.status == CancelPending
  }

  // ----------------------------------------------------------------- parties

  predicate Mine(p: Party, phone: Phone, role: Option<Role>) {
    p.phone == phone && (role.None? || p.role == role.value)
  }

  predicate Incomplete(p: Party) {
    !Given(p.name) || !Given(p.settlement) || !Given(p.address)
  }

  /** The first index at or after k whose party is mine (and incomplete, when asked). */
  function FirstMine(ps: seq<Party>, phone: Phone, role: Option<Role>, onlyIncomplete: bool, k: nat): (i: Option<nat>)
    requires k <= |ps|
    ensures i.Some? ==>
              && k <= i.value < |ps|
              && Mine(ps[i.value], phone, role)
              && (onlyIncomplete ==> Incomplete(ps[i.value]))
              && forall j :: k <= j < i.value && Mine(ps[j], phone, role) ==> onlyIncomplete && !Incomplete(ps[j])
    ensures i.None? ==> forall j :: k <= j < |ps| && Mine(ps[j], phone, role) ==> onlyIncomplete && !Incomplete(ps[j])
    decreases |ps| - k
  {
    if k == |ps| then None
    else if Mine(ps[k], phone, role) && (onlyIncomplete ==> Incomplete(ps[k])) then Some(k)
    else FirstMine(ps, phone, role, onlyIncomplete, k + 1)
  }

  /** The side a message is about: the sender's first side that still lacks a
      name, settlement or address, else the sender's first side. */
  function OwnParty(ps: seq<Party>, phone: Phone, role: Option<Role>): (i: Option<nat>)
    ensures i.Some? ==> i.value < |ps| && Mine(ps[i.value], phone, role)
    ensures i.None? <==> forall j :: 0 <= j < |ps| ==> !Mine(ps[j], phone, role)
    ensures i.Some? && !Incomplete(ps[i.value]) ==>
              forall j :: 0 <= j < |ps| && Mine(ps[j], phone, role) ==> i.value <= j && !Incomplete(ps[j])
  {
    var open := FirstMine(ps, phone, role, true, 0);
    if open.Some? then open else FirstMine(ps, phone, role, false, 0)
  }

  predicate HasRole(ps: seq<Party>, role: Role) {
    exists i :: 0 <= i < |ps| && ps[i].role == role
  }

  predicate HasPhone(ps: seq<Party>, phone: Phone) {
    exists i :: 0 <= i < |ps| && ps[i].phone == phone
  }

  predicate HasOther(ps: seq<Party>, phone: Phone) {
    exists i :: 0 <= i < |ps| && ps[i].phone != phone
  }

  /** As the rows are stored and read back: at most one side per role, donor first. */
  predicate Ordered(ps: seq<Party>) {
    1 <= |ps| <= 2 && (|ps| == 2 ==> ps[0].role == Donor && ps[1].role == Receiver)
  }

  // ------------------------------------------------------------------- items

  datatype ItemProblem = NotMoved | TooMany | NotFree | NotWorking | WardrobeNotWhole

  function TotalQuantity(items: seq<Item>): int {
    if items == [] then 0 else items[0].quantity + TotalQuantity(items[1..])
  }

  function ItemError(items: seq<Item>, hasPhoto: bool): Option<ItemProblem> {
    if exists i :: i in items && i.kind in {Piano, HouseMove} then Some(NotMoved)
    else if TotalQuantity(items) > 2 then Some(TooMany)
    else if exists i :: i in items && i.free == Some(false) then Some(NotFree)
    else if exists i :: i in items && i.working == Some(false) then Some(NotWorking)
    else if hasPhoto && exists i :: i in items && i.kind == Wardrobe
                                    && (i.needsDisassembly == Some(true) || i.smallWhole == Some(false))
      then Some(WardrobeNotWhole)
    else None
  }

  predicate Appliance(i: Item) {
    i.kind in {Fridge, Oven, WashingMachine, Dryer, Freezer, Dishwasher}
  }

  // ----------------------------------------------------------- questionnaire

  /** Which text the bot answers with; the wording itself is not modelled. */
  datatype Question =
    | StatusReport | RequestClosed | WithHuman
    | MayWeContact | SendContactOf
    | IsWardrobeSmall | IsItWorking | WhichOven | NeedsDisassembly
    | ApproveYourShare | WhichSettlement | NameAndAddress(floorNote: bool) | OtherSideNumber
    | ApproveDate(date: Date) | WaitForOtherSide | Saved

  /** The next question for a phone, or None where the source throws because
      the phone is on neither side. */
  function NextQuestion(r: Request, phone: Phone): Option<Question> {
    if r.status == Coordinated then Some(StatusReport)
    else if IsClosed(r) then Some(RequestClosed)
    else if r.status == Human then Some(WithHuman)
    else
      var own := OwnParty(r.parties, phone, None);
      if own.None? then None else Some(QuestionFor(r, r.parties[own.value]))
  }

  function QuestionFor(r: Request, p: Party): Question {
    var donor := p.role == Donor;
    var linked := exists x :: x in r.parties && x.role != p.role;
    if r.origin == Direct && !r.representsBoth && !r.verificationContacted && linked then MayWeContact
    else if r.origin == Direct && !linked then SendContactOf
    else if donor && exists i :: i in r.items && i.kind == Wardrobe && i.smallWhole != Some(true) then IsWardrobeSmall
    else if donor && exists i :: i in r.items && i.working.None? then IsItWorking
    else if donor && r.origin != Direct && exists i :: i in r.items && i.kind == Oven && i.ovenType.None? then WhichOven
    else if donor && r.origin != Direct
            && exists i :: i in r.items && !Appliance(i) && i.kind != Wardrobe && i.needsDisassembly.None?
      then NeedsDisassembly
    else if p.approvedAt.None? then ApproveYourShare
    else if !Given(p.settlement) then WhichSettlement
    else if !Given(p.name) || !Given(p.address) then
      NameAndAddress(p.settlement == Some(BEIT_SHEAN) && !p.floorNoteShown && p.floor.None?)
    else if !linked then OtherSideNumber
    else if r.proposed.Some? && p.scheduleDate != r.proposed then ApproveDate(r.proposed.value)
    else if r.proposed.Some? && (exists x :: x in r.parties && x.phone != p.phone)
            && FirstOther(r.parties, p.phone).scheduleDate != r.proposed
      then WaitForOtherSide
    else Saved
  }

  /** The first side with another phone. */
  function FirstOther(ps: seq<Party>, phone: Phone): Party
    requires exists x :: x in ps && x.phone != phone
  {
    if ps[0].phone != phone then ps[0] else FirstOther(ps[1..], phone)
  }

  /** The question is about the date or there is none: the questionnaire is done. */
  predicate Settled(q: Option<Question>) {
    q.Some? && (q.value.ApproveDate? || q.value.WaitForOtherSide? || q.value.Saved?)
  }

  // ---------------------------------------------------------------- readiness

  predicate PartyReady(p: Party) {
    && p.approvedAt.Some? && p.approvedBy == Some(p.phone)
    && Given(p.name) && Given(p.settlement) && Given(p.address)
  }

  predicate ItemReady(i: Item, origin: Origin) {
    && i.free == Some(true)
    && i.working == Some(true)
    && (i.kind == Wardrobe ==> i.smallWhole == Some(true))
    && (i.kind == Oven ==> i.ovenType.Some?)
    && (origin == Direct || Appliance(i) || i.kind == Wardrobe || i.needsDisassembly.Some?)
    && i.evacuation != Some(Different)
  }

  predicate Proposable(r: Request) {
    r.status in {Collecting, Available, AwaitingApproval, WaitingCapacity}
  }

  predicate ReadyToProposeSchedule(r: Request) {
    && Proposable(r)
    && |r.parties| == 2
    && !(r.origin == Direct && !r.representsBoth && !r.verificationContacted)
    && ItemError(r.items, true).None?
    && (forall p :: p in r.parties ==> PartyReady(p))
    && (forall i :: i in r.items ==> ItemReady(i, r.origin))
  }

  predicate ReadyToCoordinate(r: Request) {
    && r.runDate.None?
    && r.proposed.Some?
    && ReadyToProposeSchedule(r)
    && (forall p :: p in r.parties ==> p.scheduleDate == r.proposed)
  }

  /** The facts the questionnaire never asks for, which readiness still demands. */
  predicate UnaskedConditions(r: Request) {
    && Proposable(r)
    && ItemError(r.items, true).None?
    && (forall i :: i in r.items ==>
          && i.free == Some(true)
          && i.evacuation != Some(Different)
          && !(r.origin == Direct && i.kind == Oven && i.ovenType.None?))
  }

  /** What the stored rows always satisfy and the questionnaire relies on (see
      Lifecycle.RequestInv): an approval is always the side's own, and when one
      phone is on both sides the two sides are approved together, unless the
      pair was never declared a self-transfer, and then the bot still asks
      whether it may contact the other side. */
  predicate ApprovalsConsistent(r: Request) {
    && (forall p :: p in r.parties ==> p.approvedBy == (if p.approvedAt.Some? then Some(p.phone) else None))
    && (|r.parties| == 2 && r.parties[0].phone == r.parties[1].phone ==>
          || (r.representsBoth && (r.parties[0].approvedAt.Some? <==> r.parties[1].approvedAt.Some?))
          || (!r.representsBoth && r.origin == Direct && !r.verificationContacted))
  }

  /** A request may be offered a date exactly when the questionnaire has
      nothing left to ask either side and the unasked conditions hold. */
  lemma {:induction false} QuestionnaireAgreesWithReadiness(r: Request)
    requires Ordered(r.parties) && ApprovalsConsistent(r)
    ensures ReadyToProposeSchedule(r) <==>
              && UnaskedConditions(r)
              && forall p :: p in r.parties ==> Settled(NextQuestion(r, p.phone))
  {
    if ReadyToProposeSchedule(r) {
      assert UnaskedConditions(r);
      forall p | p in r.parties ensures Settled(NextQuestion(r, p.phone)) {
        ReadyLeavesNothingToAsk(r, p.phone);
      }
    } else if UnaskedConditions(r) && (forall p :: p in r.parties ==> Settled(NextQuestion(r, p.phone))) {
      NothingToAskIsReady(r);
    }
  }

  lemma ReadyLeavesNothingToAsk(r: Request, phone: Phone)
    requires Ordered(r.parties) && ReadyToProposeSchedule(r)
    requires exists p :: p in r.parties && p.phone == phone
    ensures Settled(NextQuestion(r, phone))
  {
    var own := OwnParty(r.parties, phone, None);
    var p := r.parties[own.value];
    assert p in r.parties;
    var x := r.parties[1 - own.value];
    assert x in r.parties && x.role != p.role;
  }

  /** A settled sender has nothing missing on the side the bot looked at. */
  lemma SettledSide(r: Request, p: Party)
    requires Settled(Some(QuestionFor(r, p)))
    ensures p.approvedAt.Some? && !Incomplete(p)
    ensures exists x :: x in r.parties && x.role != p.role
    ensures !(r.origin == Direct && !r.representsBoth && !r.verificationContacted)
    ensures p.role == Donor && UnaskedConditions(r) ==> forall i :: i in r.items ==> ItemReady(i, r.origin)
  {
    if p.role == Donor && UnaskedConditions(r) {
      forall i | i in r.items ensures ItemReady(i, r.origin) {
        assert i.working.Some? && i.working != Some(false);
        assert i.working.value;
        assert i.kind == Wardrobe ==> i.smallWhole == Some(true);
      }
    }
  }

  /** Nothing is missing on side k, and the request as seen from there. */
  predicate SideCleared(r: Request, k: nat)
    requires k < |r.parties|
  {
    && r.parties[k].approvedAt.Some? && !Incomplete(r.parties[k])
    && !(r.origin == Direct && !r.representsBoth && !r.verificationContacted)
    && (r.parties[k].role == Donor ==> forall i :: i in r.items ==> ItemReady(i, r.origin))
  }

  lemma OwnSideSettled(r: Request, phone: Phone) returns (k: nat)
    requires UnaskedConditions(r) && HasPhone(r.parties, phone)
    requires Settled(NextQuestion(r, phone))
    ensures OwnParty(r.parties, phone, None) == Some(k) && k < |r.parties|
    ensures SideCleared(r, k)
    ensures exists x :: x in r.parties && x.role != r.parties[k].role
  {
    var j :| 0 <= j < |r.parties| && r.parties[j].phone == phone;
    assert Mine(r.parties[j], phone, None);
    k := OwnParty(r.parties, phone, None).value;
    SettledSide(r, r.parties[k]);
  }

  lemma NothingToAskIsReady(r: Request)
    requires Ordered(r.parties) && ApprovalsConsistent(r) && UnaskedConditions(r)
    requires forall p :: p in r.parties ==> Settled(NextQuestion(r, p.phone))
    ensures ReadyToProposeSchedule(r)
  {
    var k0 := SideSettled(r, 0);
    var k1 := SideSettled(r, |r.parties| - 1);
    BothClearedIsReady(r, k0, k1);
  }

  /** The side the bot looks at for the phone of side i. */
  lemma SideSettled(r: Request, i: nat) returns (k: nat)
    requires Ordered(r.parties) && UnaskedConditions(r) && i < |r.parties|
    requires forall p :: p in r.parties ==> Settled(NextQuestion(r, p.phone))
    ensures |r.parties| == 2 && k < 2 && SideCleared(r, k)
    ensures OwnParty(r.parties, r.parties[i].phone, None) == Some(k)
  {
    assert r.parties[i] in r.parties;
    k := OwnSideSettled(r, r.parties[i].phone);
  }

  /** k0 and k1 are the sides the bot looks at for the two phones; in a
      self-transfer both are side 0. */
  lemma BothClearedIsReady(r: Request, k0: nat, k1: nat)
    requires Ordered(r.parties) && ApprovalsConsistent(r) && UnaskedConditions(r) && |r.parties| == 2
    requires k0 < 2 && SideCleared(r, k0) && OwnParty(r.parties, r.parties[0].phone, None) == Some(k0)
    requires k1 < 2 && SideCleared(r, k1) && OwnParty(r.parties, r.parties[1].phone, None) == Some(k1)
    ensures ReadyToProposeSchedule(r)
  {
    var ps := r.parties;
    assert Mine(ps[0], ps[0].phone, None) && Mine(ps[1], ps[1].phone, None);
    assert k0 == 0;
    if ps[0].phone != ps[1].phone { assert k1 == 1; }
    assert PartyReady(ps[0]) && PartyReady(ps[1]);
  }

  // -------------------------------------------------------------------- dates

  /** Local time of day, as far as the rules look at it. */
  datatype Now = Now(day: Date, hour: nat)

  predicate Tuesday(d: Date) {
    d % 7 == 2
  }

  predicate Earlier(a: Now, b: Now) {
    a.day < b.day || (a.day == b.day && a.hour <= b.hour)
  }

  function NextTuesday(now: Now): Date {
    var delta := (2 - now.day % 7 + 7) % 7;
    now.day + (if delta == 0 && now.hour >= 20 then 7 else delta)
  }

  predicate SameDay(now: Now) {
    NextTuesday(now) == now.day
  }

  /** The first Tuesday at or after a day. */
  function TuesdayFrom(d: Date): Date {
    d + (2 - d % 7 + 7) % 7
  }

  /** The day proposeScheduleDate looks at. */
  function ProposalDay(now: Now, earliest: Option<Date>): Date {
    var first := NextTuesday(now);
    TuesdayFrom(if earliest.Some? && earliest.value > first then earliest.value else first)
  }

  lemma NextTuesdayMeaning(now: Now)
    ensures Tuesday(NextTuesday(now))
    ensures now.day <= NextTuesday(now) <= now.day + 7
    ensures SameDay(now) <==> Tuesday(now.day) && now.hour < 20
    ensures forall d :: Tuesday(d) && d > now.day ==> NextTuesday(now) <= d
  {
    TuesdayFromLeast(now.day);
    forall d | Tuesday(d) && d > now.day ensures NextTuesday(now) <= d {
      TuesdayGap(now.day, d);
    }
  }

  lemma TuesdayGap(a: Date, b: Date)
    requires Tuesday(b) && a < b
    ensures TuesdayFrom(a) <= b
    ensures Tuesday(a) ==> a + 7 <= b
  {
    var q := b / 7 - a / 7;
    assert b - a == 7 * q + (b % 7 - a % 7);
  }

  lemma TuesdayFromLeast(d: Date)
    ensures Tuesday(TuesdayFrom(d)) && d <= TuesdayFrom(d) < d + 7
    ensures forall t :: Tuesday(t) && d <= t ==> TuesdayFrom(d) <= t
  {
    forall t | Tuesday(t) && d <= t ensures TuesdayFrom(d) <= t {
      if d < t { TuesdayGap(d, t); }
    }
  }

  /** Time never moves the next Tuesday back. */
  lemma NextTuesdayMonotone(a: Now, b: Now)
    requires Earlier(a, b)
    ensures NextTuesday(a) <= NextTuesday(b)
  {
    NextTuesdayMeaning(a);
    NextTuesdayMeaning(b);
    if a.day < b.day && NextTuesday(b) == b.day { TuesdayGap(a.day, b.day); }
  }

  /** The proposed day is the least Tuesday that is neither before the next
      Tuesday nor before the request's earliest date. */
  lemma ProposalDayIsLeast(now: Now, earliest: Option<Date>)
    ensures var d := ProposalDay(now, earliest);
            && Tuesday(d) && NextTuesday(now) <= d
            && (earliest.Some? ==> earliest.value <= d)
            && forall t :: Tuesday(t) && NextTuesday(now) <= t && (earliest.Some? ==> earliest.value <= t) ==> d <= t
  {
    var first := NextTuesday(now);
    TuesdayFromLeast(if earliest.Some? && earliest.value > first then earliest.value else first);
  }
}
