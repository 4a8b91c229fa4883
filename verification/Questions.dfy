/** The questionnaire by what is still missing: every question belongs to one gap
    in the request, and the first gap in a fixed order is asked about. */
module Questions {
  import opened Types
  import opened Policies

  predicate Linked(r: Request, p: Party) {
    exists x :: x in r.parties && x.role != p.role
  }

  /** A handoff between two people whose other side may not be contacted yet. */
  predicate Unverified(r: Request) {
    r.origin == Direct && !r.representsBoth && !r.verificationContacted
  }

  /** Neither an appliance, which is never taken apart, nor a wardrobe, which has
      its own question. */
  predicate MayComeApart(i: Item) {
    i.kind in {Bed, Sofa, TableSet, Table, Chairs, Other, Piano, HouseMove}
  }

  /** What question q asks for is missing, seen from side p. Only a donor is
      asked about items, and in a handoff only whether they work and whether a
      wardrobe is small. */
  predicate Missing(r: Request, p: Party, q: Question) {
    match q
    case MayWeContact => Unverified(r) && Linked(r, p)
    case SendContactOf => r.origin == Direct && !Linked(r, p)
    case IsWardrobeSmall =>
      p.role == Donor && exists i :: i in r.items && i.kind == Wardrobe && i.smallWhole != Some(true)
    case IsItWorking => p.role == Donor && exists i :: i in r.items && i.working == None
    case WhichOven =>
      p.role == Donor && r.origin == Donation && exists i :: i in r.items && i.kind == Oven && i.ovenType == None
    case NeedsDisassembly =>
      && p.role == Donor && r.origin == Donation
      && exists i :: i in r.items && MayComeApart(i) && i.needsDisassembly == None
    case ApproveYourShare => p.approvedAt == None
    case WhichSettlement => !Given(p.settlement)
    case NameAndAddress(floorNote) =>
      && (!Given(p.name) || !Given(p.address))
      && floorNote == (p.settlement == Some(BEIT_SHEAN) && p.floor == None && !p.floorNoteShown)
    case OtherSideNumber => !Linked(r, p)
    case ApproveDate(d) => r.proposed == Some(d) && p.scheduleDate != Some(d)
    case WaitForOtherSide =>
      r.proposed.Some? && exists x :: x in r.parties && x.phone != p.phone && x.scheduleDate != r.proposed
    case Saved => true
    case _ => false
  }

  function Rank(q: Question): nat {
    match q
    case MayWeContact => 1
    case SendContactOf => 2
    case IsWardrobeSmall => 3
    case IsItWorking => 4
    case WhichOven => 5
    case NeedsDisassembly => 6
    case ApproveYourShare => 7
    case WhichSettlement => 8
    case NameAndAddress(_) => 9
    case OtherSideNumber => 10
    case ApproveDate(_) => 11
    case WaitForOtherSide => 12
    case Saved => 13
    case _ => 0
  }

  ghost predicate FirstMissing(r: Request, p: Party, q: Question) {
    Missing(r, p, q) && forall x :: Missing(r, p, x) ==> Rank(q) <= Rank(x)
  }

  lemma OtherSide(ps: seq<Party>, phone: Phone)
    requires 1 <= |ps| <= 2 && exists x :: x in ps && x.phone != phone
    requires exists x :: x in ps && x.phone == phone
    ensures FirstOther(ps, phone) in ps && FirstOther(ps, phone).phone != phone
    ensures forall x :: x in ps && x.phone != phone ==> x == FirstOther(ps, phone)
  {
    if ps[0].phone == phone { assert ps[1..][0] == ps[1]; }
  }

  /** The question asked is the first missing one, and no two gaps share a place. */
  lemma AsksTheFirstMissing(r: Request, p: Party, q: Question)
    requires Ordered(r.parties) && p in r.parties
    ensures QuestionFor(r, p) == q <==> FirstMissing(r, p, q)
  {
    if exists x :: x in r.parties && x.phone != p.phone { OtherSide(r.parties, p.phone); }
    assert FirstMissing(r, p, QuestionFor(r, p));
    if FirstMissing(r, p, q) { OneGapPerRank(r, p, QuestionFor(r, p), q); }
  }

  lemma OneGapPerRank(r: Request, p: Party, q: Question, x: Question)
    requires Missing(r, p, q) && Missing(r, p, x) && Rank(q) == Rank(x)
    ensures q == x
  {}

  /** What a question about the items is about. */
  lemma AskedAboutItems(r: Request, phone: Phone)
    ensures var q := NextQuestion(r, phone);
            && (q == Some(IsItWorking) ==> exists i :: i in r.items && i.working == None)
            && (q == Some(WhichOven) ==> exists i :: i in r.items && i.kind == Oven && i.ovenType == None)
            && (q == Some(NeedsDisassembly) ==>
                  exists i :: i in r.items && MayComeApart(i) && i.needsDisassembly == None)
            && (q == Some(IsWardrobeSmall) ==>
                  exists i :: i in r.items && i.kind == Wardrobe && i.smallWhole != Some(true))
  {}

  /** A question about a side is about one with the sender's phone. */
  lemma AskedAboutSide(r: Request, phone: Phone) returns (k: nat)
    ensures NextQuestion(r, phone) in {
              Some(ApproveYourShare), Some(WhichSettlement), Some(NameAndAddress(true)), Some(NameAndAddress(false)),
              Some(OtherSideNumber), Some(SendContactOf), Some(MayWeContact)}
            || (NextQuestion(r, phone).Some? && NextQuestion(r, phone).value.ApproveDate?) ==>
              && k < |r.parties| && r.parties[k].phone == phone
              && Missing(r, r.parties[k], NextQuestion(r, phone).value)
  {
    var own := OwnParty(r.parties, phone, None);
    k := if own.Some? then own.value else 0;
  }

  /** Who is asked nothing: the request is booked, over, with a human, or not
      the sender's. Otherwise the sender's own side is asked. */
  lemma NextQuestionExactly(r: Request, phone: Phone)
    ensures NextQuestion(r, phone) == Some(StatusReport) <==> r.status == Coordinated
    ensures NextQuestion(r, phone) == Some(RequestClosed) <==> r.status in {Closed, Cancelled, Status.Rejected}
    ensures NextQuestion(r, phone) == Some(WithHuman) <==> r.status == Human
    ensures r.status !in {Coordinated, Closed, Cancelled, Status.Rejected, Human} ==>
              match OwnParty(r.parties, phone, None)
              case None => NextQuestion(r, phone) == None
              case Some(k) => NextQuestion(r, phone) == Some(QuestionFor(r, r.parties[k]))
  {}
}
